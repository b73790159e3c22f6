/**
 * Directory trees, and the template overlay that `setup_bot` performs
 * (cogs/bot_setup.py:69-80): every top-level entry of the `files` template is
 * copied into the instance folder, files with `shutil.copy2`, directories with
 * `shutil.rmtree` of the old entry followed by `shutil.copytree`.
 */
module FileTree {
  import opened Optional
  import Config

  /** What a regular file holds: opaque bytes, or a configuration record as
      `json.dump` writes it. */
  datatype Content = Bytes(data: seq<int>) | Json(record: Config.Record)

  datatype Node = File(content: Content) | Dir(children: map<string, Node>)

  /** The entries of one directory, by name. */
  type Listing = map<string, Node>

  function Lookup(d: Listing, name: string): Option<Node>
  {
    if name in d then Some(d[name]) else None
  }

  /**
   * One pass of the copy loop: the entry `name` of the instance folder after
   * the template entry `src` has been copied over the entry `existing`, or
   * None when the copy raises.
   * - A template file is written with copy2, which replaces a file; when a
   *   directory stands at the destination, copy2 writes into it, under the
   *   same name, and raises only when that name is itself a directory.
   * - A template directory replaces the old entry wholesale (rmtree, then
   *   copytree); rmtree raises when the old entry is a file.
   */
  function CopyItem(existing: Option<Node>, name: string, src: Node): Option<Node>
  {
    match src
    case File(_) =>
      (match existing
       case Some(Dir(inner)) =>
         if name in inner && inner[name].Dir? then None else Some(Dir(inner[name := src]))
       case _ => Some(src))
    case Dir(_) =>
      if existing.Some? && existing.value.File? then None else Some(src)
  }

  /** No pass of the copy loop raises when `tmpl` is laid over `dest`. */
  predicate Copies(dest: Listing, tmpl: Listing)
  {
    forall name :: name in tmpl ==> CopyItem(Lookup(dest, name), name, tmpl[name]).Some?
  }

  /** Template and destination agree on the kind of every name they share. */
  predicate SameKinds(dest: Listing, tmpl: Listing)
  {
    forall name :: name in tmpl && name in dest ==> tmpl[name].Dir? == dest[name].Dir?
  }

  /** The instance folder after the whole copy loop has run without raising. */
  function Overlay(dest: Listing, tmpl: Listing): (r: Listing)
    requires Copies(dest, tmpl)
    ensures r.Keys == dest.Keys + tmpl.Keys
    ensures forall name :: name in dest && name !in tmpl ==> r[name] == dest[name]
    ensures forall name :: name in tmpl && tmpl[name].Dir? ==> r[name] == tmpl[name]
    ensures forall name :: name in tmpl && tmpl[name].File? && !(name in dest && dest[name].Dir?) ==>
      r[name] == tmpl[name]
    ensures forall name :: name in tmpl && tmpl[name].File? && name in dest && dest[name].Dir? ==>
      r[name] == Dir(dest[name].children[name := tmpl[name]])
  {
    map name | name in dest.Keys + tmpl.Keys ::
      if name in tmpl then CopyItem(Lookup(dest, name), name, tmpl[name]).value else dest[name]
  }

  /**
   * What the instance folder may look like after the copy loop raised part
   * way through: every entry is either untouched or already copied, and
   * nothing outside the template was touched.
   */
  predicate PartlyCopied(dest: Listing, tmpl: Listing, r: Listing)
  {
    && (forall name :: name in r ==> name in dest || name in tmpl)
    && (forall name :: name in dest ==> name in r)
    && (forall name :: name in dest && name !in tmpl ==> name in r && r[name] == dest[name])
    && (forall name :: name in r && name in tmpl ==>
          Lookup(dest, name) == Some(r[name]) || CopyItem(Lookup(dest, name), name, tmpl[name]) == Some(r[name]))
  }

  /** Copying one more template entry, `name`, extends the overlay of the
      entries copied so far by that entry's copy. */
  lemma OverlayExtend(dest: Listing, tmpl: Listing, todo: set<string>, name: string)
    requires todo <= tmpl.Keys && name in todo
    requires Copies(dest, tmpl - todo)
    requires CopyItem(Lookup(dest, name), name, tmpl[name]).Some?
    ensures Copies(dest, tmpl - (todo - {name}))
    ensures Overlay(dest, tmpl - (todo - {name})) ==
            Overlay(dest, tmpl - todo)[name := CopyItem(Lookup(dest, name), name, tmpl[name]).value]
  {
    assert (tmpl - (todo - {name})).Keys == (tmpl - todo).Keys + {name};
  }

  /** A loop stopped with only some entries copied leaves a partial copy. */
  lemma OverlayPartly(dest: Listing, tmpl: Listing, todo: set<string>)
    requires Copies(dest, tmpl - todo)
    ensures PartlyCopied(dest, tmpl, Overlay(dest, tmpl - todo))
  {
  }

  /** The copy loop raises exactly when a template directory meets a file, or a
      template file meets a directory that holds a directory of the same name. */
  lemma CopiesIff(dest: Listing, tmpl: Listing)
    ensures Copies(dest, tmpl) <==>
      forall name :: name in tmpl && name in dest ==>
        && !(tmpl[name].Dir? && dest[name].File?)
        && !(tmpl[name].File? && dest[name].Dir? && name in dest[name].children && dest[name].children[name].Dir?)
  {
  }

  /** When the kinds agree, the overlay never raises and every template entry
      ends up in the instance folder exactly as it is in the template. */
  lemma OverlayPlacesTemplate(dest: Listing, tmpl: Listing)
    requires SameKinds(dest, tmpl)
    ensures Copies(dest, tmpl)
    ensures forall name :: name in tmpl ==> Overlay(dest, tmpl)[name] == tmpl[name]
  {
  }

  /** Laying the template over the folder a second time changes nothing. */
  lemma OverlayIdempotent(dest: Listing, tmpl: Listing)
    requires Copies(dest, tmpl)
    ensures Copies(Overlay(dest, tmpl), tmpl)
    ensures Overlay(Overlay(dest, tmpl), tmpl) == Overlay(dest, tmpl)
  {
    var once := Overlay(dest, tmpl);
    forall name | name in tmpl
      ensures CopyItem(Lookup(once, name), name, tmpl[name]) == Some(once[name])
    {
      if tmpl[name].File? && name in dest && dest[name].Dir? {
        var inner := once[name].children;
        assert inner[name] == tmpl[name];
        assert inner[name := tmpl[name]] == inner;
      }
    }
  }
}
