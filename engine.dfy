/** The composer of engine.go: it checks template file names, sets up the
    engine's configuration, and turns a registry of parsed templates (a
    layout, views and partials) into one self-contained template set per
    view. */
module Engine {
  import opened ParseTree
  import opened Process
  import opened GoStrings

  /** defaultExts. */
  const DefaultExts: seq<string> := [".html", ".gohtml", ".tpl", ".tmpl"]
  /** The layout name setup records when no layout option was given. */
  const DefaultLayoutName: string := "default_layout"
  /** The name parseLayout gives the layout template. */
  const LayoutName: string := "layout"
  /** The name a view's own tree is grafted under. */
  const BodyName: string := "body"

  // ---------------------------------------------------------------------
  // Errors

  /** The context fmt.Errorf adds in front of a wrapped error. */
  datatype Context =
    | CreatingEngine                // "error creating new engine"
    | InvalidLayoutFile             // "invalid layout file"
    | ReadingLayoutFile(name: string)
    | ParsingLayout                 // "error parsing layout"
    | ProcessingLayout              // "error processing layout"
    | ParsingTemplate(name: string) // "error parsing template '<name>'"
    | ParsingPartial(name: string)  // "error parsing partial: '<name>'"
    | ParsingView(name: string)     // "error parsing view '<name>'"

  datatype Error =
    | NotFound                         // ErrNotFound
    | Positioned(cause: PositionError) // an error of processTree
    | UnsupportedExtension(ext: string)
    | NotLayoutName(ext: string)
    | ReadFailed(name: string)         // a file the file system could not read
    | ParseFailed(name: string)        // html/template could not parse a source
    | Wrapped(context: Context, inner: Error)

  /** errors.Is(err, ErrNotFound): the sentinel, behind any number of
      %w wrappings. */
  predicate IsNotFound(e: Error)
  {
    match e
    case NotFound => true
    case Wrapped(_, inner) => IsNotFound(inner)
    case _ => false
  }

  datatype Result<T> = Success(value: T) | Failure(error: Error)

  // ---------------------------------------------------------------------
  // File names

  /** hasExt's sanitize: one leading dot dropped, then lower-cased. */
  function Sanitize(ext: string): string
  {
    ToLower(TrimPrefix(ext, "."))
  }

  /** What hasExt promises: ext is not empty and equals some listed
      extension up to one leading dot and ASCII case. */
  predicate Listed(exts: seq<string>, ext: string)
  {
    ext != "" && exists i :: 0 <= i < |exts| && Sanitize(exts[i]) == Sanitize(ext)
  }

  /** hasExt. */
  method HasExt(exts: seq<string>, ext: string) returns (ok: bool)
    ensures ok == Listed(exts, ext)
  {
    if ext == "" {
      return false;
    }
    var want := Sanitize(ext);
    for i := 0 to |exts|
      invariant forall j :: 0 <= j < i ==> Sanitize(exts[j]) != want
    {
      if Sanitize(exts[i]) == want {
        return true;
      }
    }
    return false;
  }

  /** The name a layout file must have: an accepted extension, and the
      name without it ending in "layout" whatever the case. */
  predicate LayoutFileName(exts: seq<string>, name: string)
  {
    Listed(exts, Ext(name)) && HasSuffix(ToLower(TrimSuffix(name, Ext(name))), "layout")
  }

  /** The error validateLayoutFile returns: the extension is checked
      first, then the name. */
  function LayoutFileFault(exts: seq<string>, name: string): (r: Option<Error>)
    ensures r.None? <==> LayoutFileName(exts, name)
    ensures !Listed(exts, Ext(name)) ==> r == Some(UnsupportedExtension(Ext(name)))
    ensures Listed(exts, Ext(name)) && r.Some? ==> r == Some(NotLayoutName(Ext(name)))
  {
    if !Listed(exts, Ext(name)) then Some(UnsupportedExtension(Ext(name)))
    else if !HasSuffix(ToLower(TrimSuffix(name, Ext(name))), "layout") then Some(NotLayoutName(Ext(name)))
    else None
  }

  /** validateLayoutFile. */
  method ValidateLayoutFile(exts: seq<string>, name: string) returns (err: Option<Error>)
    ensures err == LayoutFileFault(exts, name)
  {
    var ext := Ext(name);
    var ok := HasExt(exts, ext);
    if !ok {
      return Some(UnsupportedExtension(ext));
    }
    var nameOnly := TrimSuffix(name, ext);
    if !HasSuffix(ToLower(nameOnly), "layout") {
      return Some(NotLayoutName(ext));
    }
    return None;
  }

  /** A path one of whose elements starts with a dot: WalkDir skips the
      directory or file of that element. */
  predicate Hidden(path: string)
  {
    exists i :: 0 <= i < |path| && path[i] == '.' && (i == 0 || path[i - 1] == '/')
  }

  /** The last element of a slash-separated path: the DirEntry's Name(). */
  function LastElement(path: string): (r: string)
    ensures HasSuffix(path, r)
    ensures forall i :: 0 <= i < |r| ==> r[i] != '/'
  {
    if path == [] || path[|path| - 1] == '/' then []
    else LastElement(path[..|path| - 1]) + [path[|path| - 1]]
  }

  /** The extension of a path is the extension of its last element. */
  lemma {:induction false} ExtOfLastElement(path: string)
    ensures Ext(LastElement(path)) == Ext(path)
  {
    if path != [] && path[|path| - 1] != '/' {
      var p := path[..|path| - 1];
      ExtOfLastElement(p);
      var l := LastElement(path);
      assert l[..|l| - 1] == LastElement(p);
    }
  }

  /** The filter walk applies to each regular file: not hidden, an
      accepted extension, and not named like a layout file. */
  method Admits(exts: seq<string>, path: string) returns (ok: bool)
    ensures ok <==> !Hidden(path) && Listed(exts, Ext(path)) && !LayoutFileName(exts, path)
  {
    if Hidden(path) {
      return false;
    }
    var ext := Ext(LastElement(path));
    ExtOfLastElement(path);
    var listed := HasExt(exts, ext);
    if !listed {
      return false;
    }
    var err := ValidateLayoutFile(exts, path);
    if err.None? {
      return false;
    }
    return true;
  }

  // ---------------------------------------------------------------------
  // Configuration

  /** A FuncMap's function values are opaque: the two placeholders and
      the caller's functions, told apart by an identifier. */
  datatype Func = RenderPlaceholder | PartialPlaceholder | CallerFunc(id: nat)

  type FuncMap = map<string, Func>

  /** placeholderFuncs: render and partial bound to functions that yield "". */
  function PlaceholderFuncs(): (r: FuncMap)
    ensures forall k :: k in r <==> k == RenderFunc.String() || k == PartialFunc.String()
    ensures r[RenderFunc.String()] == RenderPlaceholder && r[PartialFunc.String()] == PartialPlaceholder
  {
    map[RenderFunc.String() := RenderPlaceholder, PartialFunc.String() := PartialPlaceholder]
  }

  /** The loop of setup that copies the caller's functions over the
      placeholders: every key of either map is kept, and the caller's
      function wins on a shared key. */
  method MergeFuncs(base: FuncMap, extra: FuncMap) returns (r: FuncMap)
    ensures forall k :: k in r <==> k in base || k in extra
    ensures forall k :: k in extra ==> r[k] == extra[k]
    ensures forall k :: k in base && k !in extra ==> r[k] == base[k]
  {
    r := base;
    var todo := extra.Keys;
    while todo != {}
      invariant todo <= extra.Keys
      invariant forall k :: k in r <==> k in base || (k in extra && k !in todo)
      invariant forall k :: k in extra && k !in todo ==> r[k] == extra[k]
      invariant forall k :: k in base && (k !in extra || k in todo) ==> r[k] == base[k]
      decreases todo
    {
      var k :| k in todo;
      r := r[k := extra[k]];
      todo := todo - {k};
    }
  }

  /** optionVal: a value, and whether an option set it. */
  datatype OptionVal<T> = OptionVal(val: T, isSet: bool)

  /** Config, as the options leave it and setup completes it. The file
      system and the root option are not part of this model. */
  class Config {
    var exts: OptionVal<seq<string>>
    var layout: OptionVal<string>
    var layoutRaw: string
    var funcMap: OptionVal<FuncMap>

    /** A configuration with the given options applied. */
    constructor (exts: OptionVal<seq<string>>, layout: OptionVal<string>, funcMap: OptionVal<FuncMap>)
      ensures this.exts == exts && this.layout == layout && this.funcMap == funcMap
      ensures layoutRaw == ""
    {
      this.exts := exts;
      this.layout := layout;
      this.funcMap := funcMap;
      layoutRaw := "";
    }

    /** setup: default extensions when none were given; the named layout
        file checked and read from fsys, or the default layout; the
        placeholders overlaid with the caller's functions. update never
        marks a value as set. */
    method Setup(fsys: map<string, string>, defaultLayout: string) returns (err: Option<Error>)
      modifies this
      ensures exts == (if old(exts.isSet) then old(exts) else old(exts).(val := DefaultExts))
      ensures old(layout.isSet) && LayoutFileFault(exts.val, layout.val).Some? ==>
        err == Some(Wrapped(InvalidLayoutFile, LayoutFileFault(exts.val, layout.val).value))
      ensures old(layout.isSet) && LayoutFileFault(exts.val, layout.val).None? && layout.val !in fsys ==>
        err == Some(Wrapped(ReadingLayoutFile(layout.val), ReadFailed(layout.val)))
      ensures old(layout.isSet) && LayoutFileFault(exts.val, layout.val).None? && layout.val in fsys ==> err.None?
      ensures old(layout.isSet) ==> layout == old(layout)
      ensures old(layout.isSet) && err.None? ==> layout.val in fsys && layoutRaw == fsys[layout.val]
      ensures old(layout.isSet) && err.Some? ==> layoutRaw == old(layoutRaw) && funcMap == old(funcMap)
      ensures !old(layout.isSet) ==>
        err.None? && layout == old(layout).(val := DefaultLayoutName) && layoutRaw == defaultLayout
      ensures err.None? ==> funcMap.isSet == old(funcMap.isSet)
      ensures err.None? ==> forall k :: k in funcMap.val <==> k in PlaceholderFuncs() || (old(funcMap.isSet) && k in old(funcMap.val))
      ensures err.None? && old(funcMap.isSet) ==> forall k :: k in old(funcMap.val) ==> funcMap.val[k] == old(funcMap.val)[k]
      ensures err.None? ==> forall k :: k in PlaceholderFuncs() && !(old(funcMap.isSet) && k in old(funcMap.val)) ==>
        funcMap.val[k] == PlaceholderFuncs()[k]
    {
      if !exts.isSet {
        exts := exts.(val := DefaultExts);
      }

      if layout.isSet {
        err := ValidateLayoutFile(exts.val, layout.val);
        if err.Some? {
          return Some(Wrapped(InvalidLayoutFile, err.value));
        }
        if layout.val !in fsys {
          return Some(Wrapped(ReadingLayoutFile(layout.val), ReadFailed(layout.val)));
        }
        layoutRaw := fsys[layout.val];
      } else {
        layout := layout.(val := DefaultLayoutName);
        layoutRaw := defaultLayout;
      }

      var merged := PlaceholderFuncs();
      if funcMap.isSet {
        merged := MergeFuncs(merged, funcMap.val);
      }
      funcMap := funcMap.(val := merged);
      return None;
    }

    /** The first step of newEngine: setup, with its failure wrapped as
        "error creating new engine". */
    method Create(fsys: map<string, string>, defaultLayout: string) returns (err: Option<Error>)
      modifies this
      ensures exts == (if old(exts.isSet) then old(exts) else old(exts).(val := DefaultExts))
      ensures err.None? <==> !old(layout.isSet) || (LayoutFileFault(exts.val, layout.val).None? && layout.val in fsys)
      ensures old(layout.isSet) && LayoutFileFault(exts.val, layout.val).Some? ==>
        err == Some(Wrapped(CreatingEngine, Wrapped(InvalidLayoutFile, LayoutFileFault(exts.val, layout.val).value)))
      ensures old(layout.isSet) && LayoutFileFault(exts.val, layout.val).None? && layout.val !in fsys ==>
        err == Some(Wrapped(CreatingEngine, Wrapped(ReadingLayoutFile(layout.val), ReadFailed(layout.val))))
      ensures err.Some? ==> !IsNotFound(err.value) && layoutRaw == old(layoutRaw) && funcMap == old(funcMap)
      ensures old(layout.isSet) ==> layout == old(layout)
      ensures !old(layout.isSet) ==> layout == old(layout).(val := DefaultLayoutName) && layoutRaw == defaultLayout
      ensures old(layout.isSet) && err.None? ==> layoutRaw == fsys[layout.val]
    {
      var e := Setup(fsys, defaultLayout);
      if e.Some? {
        SetupFaultFound(e.value, exts.val, layout.val);
        return Some(Wrapped(CreatingEngine, e.value));
      }
      return None;
    }
  }

  /** A setup failure is an invalid or unreadable layout file, never
      ErrNotFound. */
  lemma SetupFaultFound(e: Error, exts: seq<string>, name: string)
    requires LayoutFileFault(exts, name).Some? ==> e == Wrapped(InvalidLayoutFile, LayoutFileFault(exts, name).value)
    requires LayoutFileFault(exts, name).None? ==> e == Wrapped(ReadingLayoutFile(name), ReadFailed(name))
    ensures !IsNotFound(Wrapped(CreatingEngine, e))
  {
    var fault := LayoutFileFault(exts, name);
    if fault.Some? {
      assert !IsNotFound(fault.value);
      assert !IsNotFound(e);
    } else {
      assert !IsNotFound(e.inner);
    }
  }

  // ---------------------------------------------------------------------
  // Composition, as functions

  /** An html/template set: its templates' trees by name. Clone is a
      copy and AddParseTree a map update. */
  type TemplateSet = map<string, seq<Node>>

  /** The registry walk builds: the parsed template files by path. */
  type Files = map<string, TemplateFile>

  /** Every entry of a registry is the template named after its path. */
  predicate Keyed(files: Files)
  {
    forall k :: k in files ==> files[k].name == k
  }

  /** The result of html/template parsing a source: its own tree and
      the templates it defines, or a parse error. */
  datatype Parse = Parsed(root: seq<Node>, defines: map<string, seq<Node>>) | ParseError

  /** Templates(): a file's own tree under its name and the templates it
      defines. */
  function Templates(t: TemplateFile): (r: TemplateSet)
    ensures r.Keys == t.defines.Keys + {t.name}
    ensures r[t.name] == t.root
    ensures forall k :: k in t.defines && k != t.name ==> r[k] == t.defines[k]
  {
    t.defines[t.name := t.root]
  }

  function Names(refs: seq<NestedFile>): set<string>
  {
    set i | 0 <= i < |refs| :: refs[i].name
  }

  lemma NamesCons(refs: seq<NestedFile>)
    requires refs != []
    ensures Names(refs) == {refs[0].name} + Names(refs[1..])
  {
    forall k | k in Names(refs)
      ensures k == refs[0].name || k in Names(refs[1..])
    {
      var i :| 0 <= i < |refs| && refs[i].name == k;
      if i > 0 {
        assert refs[1..][i - 1].name == k;
      }
    }
    forall k | k in Names(refs[1..])
      ensures k in Names(refs)
    {
      var i :| 0 <= i < |refs[1..]| && refs[1..][i].name == k;
      assert refs[i + 1].name == k;
    }
  }

  /** A registry entry as parsePartial leaves it: stamped partial, its
      tree rewritten in place under partial rules. */
  function AsPartial(t: TemplateFile): TemplateFile
  {
    var s := t.(typ := PartialType);
    s.(root := Processed(s).root)
  }

  /** An entry that was rewritten as a partial without error stays as it
      is when it is rewritten as a partial again. */
  lemma AsPartialSettled(t: TemplateFile)
    requires Processed(t.(typ := PartialType)).err.None?
    ensures AsPartial(AsPartial(t)) == AsPartial(t)
    ensures Processed(AsPartial(t)).err.None?
  {
    ProcessedSettled(t.(typ := PartialType), PartialType);
  }

  /** Whether a reference has to resolve in the registry: every reference
      of a view, only the partial ones of a layout. */
  predicate Required(ref: NestedFile, fromLayout: bool)
  {
    !fromLayout || ref.typ == PartialFunc
  }

  datatype Composed = Composed(files: Files, tmpl: TemplateSet, err: Option<Error>)

  /** The reference loop of parseLayout (fromLayout) and of parseView:
      each reference is looked up in the registry, stamped partial,
      rewritten and grafted under its name. A layout's missing render
      target gets an empty template; any other missing target is
      ErrNotFound. The loop stops at the first error. */
  function GraftRefs(files: Files, tmpl: TemplateSet, refs: seq<NestedFile>, fromLayout: bool): (c: Composed)
    ensures c.files.Keys == files.Keys
    ensures forall k :: k in files ==> c.files[k].name == files[k].name
    ensures c.err.Some? && IsNotFound(c.err.value) ==>
      exists r :: r in refs && r.name !in files && Required(r, fromLayout)
    decreases |refs|
  {
    if refs == [] then Composed(files, tmpl, None)
    else
      var ref := refs[0];
      if ref.name !in files then
        if Required(ref, fromLayout) then
          Composed(files, map[], Some(Wrapped(ParsingTemplate(ref.name), NotFound)))
        else
          GraftRefs(files, tmpl[ref.name := []], refs[1..], fromLayout)
      else
        var t := files[ref.name].(typ := PartialType);
        var p := Processed(t);
        var files' := files[ref.name := t.(root := p.root)];
        if p.err.Some? then
          assert !IsNotFound(Positioned(p.err.value));
          Composed(files', map[], Some(Wrapped(ParsingPartial(ref.name), Positioned(p.err.value))))
        else
          GraftRefs(files', tmpl[ref.name := p.root], refs[1..], fromLayout)
  }

  /** The reference loop over a single reference. */
  lemma GraftRefsSingle(files: Files, tmpl: TemplateSet, ref: NestedFile, fromLayout: bool)
    ensures GraftRefs(files, tmpl, [ref], fromLayout) ==
      if ref.name !in files then
        if Required(ref, fromLayout) then Composed(files, map[], Some(Wrapped(ParsingTemplate(ref.name), NotFound)))
        else Composed(files, tmpl[ref.name := []], None)
      else
        var t := files[ref.name].(typ := PartialType);
        var p := Processed(t);
        var files' := files[ref.name := t.(root := p.root)];
        if p.err.Some? then Composed(files', map[], Some(Wrapped(ParsingPartial(ref.name), Positioned(p.err.value))))
        else Composed(files', tmpl[ref.name := p.root], None)
  {
  }

  /** The reference loop is its first turn followed by the rest. */
  lemma GraftRefsSplit(files: Files, tmpl: TemplateSet, refs: seq<NestedFile>, fromLayout: bool)
    requires refs != []
    ensures var first := GraftRefs(files, tmpl, refs[..1], fromLayout);
      GraftRefs(files, tmpl, refs, fromLayout) ==
        if first.err.Some? then first else GraftRefs(first.files, first.tmpl, refs[1..], fromLayout)
  {
    assert refs[..1][1..] == [];
  }

  /** The registry after the reference loop: entries no reference names
      are untouched; on success every named entry is stamped partial and
      rewritten once, even when several references name it. */
  lemma {:induction false} GraftRefsFiles(files: Files, tmpl: TemplateSet, refs: seq<NestedFile>, fromLayout: bool)
    ensures var c := GraftRefs(files, tmpl, refs, fromLayout);
      && (forall k :: k in files && k !in Names(refs) ==> c.files[k] == files[k])
      && (c.err.None? ==> forall k :: k in Names(refs) && k in files ==> c.files[k] == AsPartial(files[k]))
    decreases |refs|
  {
    if refs != [] {
      var ref := refs[0];
      NamesCons(refs);
      if ref.name !in files {
        if !Required(ref, fromLayout) {
          GraftRefsFiles(files, tmpl[ref.name := []], refs[1..], fromLayout);
        }
      } else {
        var t := files[ref.name].(typ := PartialType);
        var p := Processed(t);
        if p.err.None? {
          GraftRefsPresentStep(files, tmpl, refs, fromLayout);
          var files' := files[ref.name := t.(root := p.root)];
          GraftRefsFiles(files', tmpl[ref.name := p.root], refs[1..], fromLayout);
          AsPartialSettled(files[ref.name]);
        }
      }
    }
  }

  /** The template set after a successful reference loop: every
      reference is grafted under its name, a present one as the entry's
      rewritten tree, a missing one as an empty tree, and nothing else
      changes. */
  lemma {:induction false} GraftRefsTemplates(files: Files, tmpl: TemplateSet, refs: seq<NestedFile>, fromLayout: bool)
    requires GraftRefs(files, tmpl, refs, fromLayout).err.None?
    ensures var c := GraftRefs(files, tmpl, refs, fromLayout);
      && c.tmpl.Keys == tmpl.Keys + Names(refs)
      && (forall k :: k in tmpl && k !in Names(refs) ==> c.tmpl[k] == tmpl[k])
      && (forall k :: k in Names(refs) && k in files ==> c.tmpl[k] == c.files[k].root)
      && (forall k :: k in Names(refs) && k !in files ==> c.tmpl[k] == [])
    decreases |refs|
  {
    if refs != [] {
      var ref := refs[0];
      NamesCons(refs);
      if ref.name !in files {
        GraftRefsTemplates(files, tmpl[ref.name := []], refs[1..], fromLayout);
      } else {
        GraftRefsPresentStep(files, tmpl, refs, fromLayout);
        var t := files[ref.name].(typ := PartialType);
        var p := Processed(t);
        var files' := files[ref.name := t.(root := p.root)];
        GraftRefsTemplates(files', tmpl[ref.name := p.root], refs[1..], fromLayout);
        GraftRefsFiles(files', tmpl[ref.name := p.root], refs[1..], fromLayout);
      }
    }
  }

  /** One successful turn of the reference loop on a present target: the
      entry is stamped partial and rewritten, and its tree grafted. */
  lemma GraftRefsPresentStep(files: Files, tmpl: TemplateSet, refs: seq<NestedFile>, fromLayout: bool)
    requires refs != [] && refs[0].name in files
    ensures var t := files[refs[0].name].(typ := PartialType);
      var p := Processed(t);
      && (GraftRefs(files, tmpl, refs, fromLayout).err.None? ==> p.err.None?)
      && (p.err.None? ==>
            GraftRefs(files, tmpl, refs, fromLayout)
            == GraftRefs(files[refs[0].name := t.(root := p.root)], tmpl[refs[0].name := p.root], refs[1..], fromLayout))
  {
  }

  /** A successful reference loop met no missing target it required. */
  lemma {:induction false} GraftRefsResolved(files: Files, tmpl: TemplateSet, refs: seq<NestedFile>, fromLayout: bool)
    requires GraftRefs(files, tmpl, refs, fromLayout).err.None?
    ensures forall r :: r in refs && r.name !in files ==> !Required(r, fromLayout)
    decreases |refs|
  {
    if refs != [] {
      var ref := refs[0];
      assert forall r :: r in refs ==> r == ref || r in refs[1..];
      if ref.name !in files {
        GraftRefsResolved(files, tmpl[ref.name := []], refs[1..], fromLayout);
      } else {
        var t := files[ref.name].(typ := PartialType);
        var p := Processed(t);
        GraftRefsResolved(files[ref.name := t.(root := p.root)], tmpl[ref.name := p.root], refs[1..], fromLayout);
      }
    }
  }

  /** The last loop of parseView: every template the view's file holds
      is grafted under its own name, the file's own tree under "body". */
  function AddDefined(tmpl: TemplateSet, name: string, own: TemplateSet): TemplateSet
    requires name in own
  {
    (tmpl + (own - {name}))[BodyName := own[name]]
  }

  /** A registry entry as parseView leaves it: stamped view, its tree
      rewritten in place under view rules. */
  function AsView(t: TemplateFile): TemplateFile
  {
    var s := t.(typ := ViewType);
    s.(root := Processed(s).root)
  }

  /** parseLayout: the layout source parsed as template "layout",
      rewritten under layout rules, and its references grafted. */
  function ComposeLayout(files: Files, parsed: Parse, raw: string): (c: Composed)
    ensures c.files.Keys == files.Keys
    ensures forall k :: k in files ==> c.files[k].name == files[k].name
  {
    match parsed
    case ParseError => Composed(files, map[], Some(ParseFailed(LayoutName)))
    case Parsed(root, defines) =>
      var layout := TemplateFile(LayoutName, root, defines, LayoutType, raw);
      var p := Processed(layout);
      if p.err.Some? then Composed(files, map[], Some(Wrapped(ProcessingLayout, Positioned(p.err.value))))
      else GraftRefs(files, Templates(layout.(root := p.root)), p.ts, true)
  }

  /** parseView: a copy of the layout set, the view's entry stamped view
      and rewritten, its references grafted, then every template of the
      view's file. */
  function ComposeView(files: Files, layout: TemplateSet, name: string): (c: Composed)
    requires name in files && files[name].name == name
    ensures c.files.Keys == files.Keys
    ensures forall k :: k in files ==> c.files[k].name == files[k].name
  {
    var body := files[name].(typ := ViewType);
    var p := Processed(body);
    var files1 := files[name := body.(root := p.root)];
    if p.err.Some? then Composed(files1, map[], Some(Wrapped(ParsingView(name), Positioned(p.err.value))))
    else
      var g := GraftRefs(files1, layout, p.ts, false);
      ProcessedRefs(body);
      GraftRefsFiles(files1, layout, p.ts, false);
      if g.err.Some? then g
      else Composed(g.files, AddDefined(g.tmpl, name, Templates(g.files[name])), None)
  }

  datatype Built = Built(files: Files, views: map<string, TemplateSet>, err: Option<Error>)

  /** The view loop of newEngine over the registry's keys in the order
      given; the first error aborts the construction. */
  function BuildViews(files: Files, layout: TemplateSet, order: seq<string>, views: map<string, TemplateSet>): (b: Built)
    requires Keyed(files)
    requires forall i :: 0 <= i < |order| ==> order[i] in files
    ensures b.files.Keys == files.Keys && Keyed(b.files)
    decreases |order|
  {
    if order == [] then Built(files, views, None)
    else
      var c := ComposeView(files, layout, order[0]);
      if c.err.Some? then Built(c.files, map[], c.err)
      else BuildViews(c.files, layout, order[1..], views[order[0] := c.tmpl])
  }

  /** newEngine after setup and walk: the layout composed, then every
      view. */
  function Construct(files: Files, parsed: Parse, raw: string, order: seq<string>): Built
    requires Keyed(files)
    requires forall i :: 0 <= i < |order| ==> order[i] in files
  {
    var l := ComposeLayout(files, parsed, raw);
    if l.err.Some? then Built(l.files, map[], Some(Wrapped(ParsingLayout, l.err.value)))
    else BuildViews(l.files, l.tmpl, order, map[])
  }

  /** The lookup of Render: the composed set of a view built at
      construction, or ErrNotFound. Executing the set is not modelled. */
  function Render(views: map<string, TemplateSet>, view: string): (r: Result<TemplateSet>)
    ensures r.Failure? <==> view !in views
    ensures r.Failure? ==> r.error == NotFound
    ensures r.Success? ==> r.value == views[view]
  {
    if view in views then Success(views[view]) else Failure(NotFound)
  }

  // ---------------------------------------------------------------------
  // Properties of composition

  /** The parts of a successful parseView: the view's own rewrite, then
      the reference loop over the registry with the view's entry
      replaced, then its file's templates. */
  lemma ComposeViewParts(files: Files, layout: TemplateSet, name: string)
    requires name in files && files[name].name == name
    requires ComposeView(files, layout, name).err.None?
    ensures var p := Processed(files[name].(typ := ViewType));
      var g := GraftRefs(files[name := AsView(files[name])], layout, p.ts, false);
      && p.err.None? && g.err.None?
      && name !in Names(p.ts)
      && Names(p.ts) <= files.Keys
      && g.files[name] == AsView(files[name])
      && ComposeView(files, layout, name) == Composed(g.files, AddDefined(g.tmpl, name, Templates(AsView(files[name]))), None)
  {
    var body := files[name].(typ := ViewType);
    var p := Processed(body);
    var files1 := files[name := body.(root := p.root)];
    ProcessedRefs(body);
    GraftRefsFiles(files1, layout, p.ts, false);
    GraftRefsResolved(files1, layout, p.ts, false);
    forall k | k in Names(p.ts)
      ensures k in files && k != name
    {
      var i :| 0 <= i < |p.ts| && p.ts[i].name == k;
      assert p.ts[i] in p.ts;
    }
  }

  /** What a composed view holds: a copy of the layout set, overlaid with
      each referenced partial (stamped and rewritten in the registry),
      then with every template the view's file defines, its own
      rewritten tree as "body". The view's entry is left stamped view. */
  lemma ComposeViewContents(files: Files, layout: TemplateSet, name: string)
    requires name in files && files[name].name == name
    requires ComposeView(files, layout, name).err.None?
    ensures var c := ComposeView(files, layout, name);
      var v := AsView(files[name]);
      var refs := Names(Processed(files[name].(typ := ViewType)).ts);
      && c.files[name] == v
      && c.tmpl.Keys == layout.Keys + refs + (v.defines.Keys - {name}) + {BodyName}
      && c.tmpl[BodyName] == v.root
      && (forall k :: k in v.defines && k != name && k != BodyName ==> c.tmpl[k] == v.defines[k])
      && (forall k :: k in refs && k !in v.defines && k != BodyName ==>
            k in files && c.files[k] == AsPartial(files[k]) && c.tmpl[k] == c.files[k].root)
      && (forall k :: k in layout && k !in refs && k !in v.defines && k != BodyName ==> c.tmpl[k] == layout[k])
  {
    ComposeViewParts(files, layout, name);
    var p := Processed(files[name].(typ := ViewType));
    var files1 := files[name := AsView(files[name])];
    GraftRefsFiles(files1, layout, p.ts, false);
    GraftRefsTemplates(files1, layout, p.ts, false);
    var g := GraftRefs(files1, layout, p.ts, false);
    AddDefinedContents(g.tmpl, AsView(files[name]));
  }

  /** A file's templates laid over a set: its own tree as "body", its
      other definitions, and the rest of the set as it was. */
  lemma AddDefinedContents(tmpl: TemplateSet, v: TemplateFile)
    ensures var r := AddDefined(tmpl, v.name, Templates(v));
      && r.Keys == tmpl.Keys + (v.defines.Keys - {v.name}) + {BodyName}
      && r[BodyName] == v.root
      && (forall k :: k in v.defines && k != v.name && k != BodyName ==> r[k] == v.defines[k])
      && (forall k :: k in tmpl && k !in v.defines && k != BodyName ==> r[k] == tmpl[k])
  {
  }

  /** A view composed without error holds no marker in its body nor in
      any partial it grafted. */
  lemma ComposeViewUnmarked(files: Files, layout: TemplateSet, name: string)
    requires name in files && files[name].name == name
    requires ComposeView(files, layout, name).err.None?
    ensures var c := ComposeView(files, layout, name);
      && NoMarkers(c.files[name].root)
      && forall k :: k in Names(Processed(files[name].(typ := ViewType)).ts) ==> k in c.files && NoMarkers(c.files[k].root)
  {
    ComposeViewParts(files, layout, name);
    var p := Processed(files[name].(typ := ViewType));
    var files1 := files[name := AsView(files[name])];
    ProcessedUnmarked(files[name].(typ := ViewType));
    GraftRefsPartialsSucceeded(files1, layout, p.ts, false);
    forall k | k in Names(p.ts)
      ensures NoMarkers(GraftRefs(files1, layout, p.ts, false).files[k].root)
    {
      ProcessedUnmarked(files1[k].(typ := PartialType));
    }
  }

  /** On success, every entry the reference loop rewrote was rewritten
      as a partial without error. */
  lemma {:induction false} GraftRefsPartialsSucceeded(files: Files, tmpl: TemplateSet, refs: seq<NestedFile>, fromLayout: bool)
    requires GraftRefs(files, tmpl, refs, fromLayout).err.None?
    ensures forall k :: k in Names(refs) && k in files ==> Processed(files[k].(typ := PartialType)).err.None?
    ensures forall k :: k in Names(refs) && k in files ==> GraftRefs(files, tmpl, refs, fromLayout).files[k] == AsPartial(files[k])
    decreases |refs|
  {
    GraftRefsFiles(files, tmpl, refs, fromLayout);
    if refs != [] {
      var ref := refs[0];
      NamesCons(refs);
      if ref.name !in files {
        GraftRefsPartialsSucceeded(files, tmpl[ref.name := []], refs[1..], fromLayout);
      } else {
        var t := files[ref.name].(typ := PartialType);
        var p := Processed(t);
        GraftRefsPartialsSucceeded(files[ref.name := t.(root := p.root)], tmpl[ref.name := p.root], refs[1..], fromLayout);
      }
    }
  }

  /** What a composed layout holds: its own rewritten tree as "layout",
      the templates it defines, and every reference, a present one as the
      registry entry rewritten as a partial, a missing one (only render
      may miss) as an empty tree. */
  lemma ComposeLayoutContents(files: Files, root: seq<Node>, defines: map<string, seq<Node>>, raw: string)
    requires ComposeLayout(files, Parsed(root, defines), raw).err.None?
    ensures var c := ComposeLayout(files, Parsed(root, defines), raw);
      var t := TemplateFile(LayoutName, root, defines, LayoutType, raw);
      var refs := Processed(t).ts;
      && LayoutName !in Names(refs)
      && c.tmpl.Keys == defines.Keys + {LayoutName} + Names(refs)
      && c.tmpl[LayoutName] == Processed(t).root
      && NoMarkers(c.tmpl[LayoutName])
      && (forall k :: k in defines && k != LayoutName && k !in Names(refs) ==> c.tmpl[k] == defines[k])
      && (forall k :: k in Names(refs) && k in files ==> c.files[k] == AsPartial(files[k]) && c.tmpl[k] == c.files[k].root)
      && (forall r :: r in refs && r.name !in files ==> r.typ == RenderFunc && c.tmpl[r.name] == [])
      && (forall k :: k in files && k !in Names(refs) ==> c.files[k] == files[k])
  {
    var t := TemplateFile(LayoutName, root, defines, LayoutType, raw);
    var p := Processed(t);
    ProcessedRefs(t);
    ProcessedUnmarked(t);
    var init := Templates(t.(root := p.root));
    GraftRefsFiles(files, init, p.ts, true);
    GraftRefsTemplates(files, init, p.ts, true);
    GraftRefsResolved(files, init, p.ts, true);
    ProcessedNotSelf(t);
    NamesCover(p.ts);
  }

  /** A processed template never references itself. */
  lemma ProcessedNotSelf(t: TemplateFile)
    requires Processed(t).err.None?
    ensures t.name !in Names(Processed(t).ts)
  {
    var refs := Processed(t).ts;
    ProcessedRefs(t);
    forall k | k in Names(refs)
      ensures k != t.name
    {
      var i :| 0 <= i < |refs| && refs[i].name == k;
      assert refs[i] in refs;
    }
  }

  /** Every reference's name is among the names of its list. */
  lemma NamesCover(refs: seq<NestedFile>)
    ensures forall r :: r in refs ==> r.name in Names(refs)
  {
    forall r | r in refs
      ensures r.name in Names(refs)
    {
      var i :| 0 <= i < |refs| && refs[i] == r;
    }
  }

  /** One turn of the view loop: the first view composed against the
      registry, which it may change, and the rest against the result. */
  lemma BuildViewsStep(files: Files, layout: TemplateSet, order: seq<string>, views: map<string, TemplateSet>)
    requires Keyed(files) && order != []
    requires forall i :: 0 <= i < |order| ==> order[i] in files
    ensures var c := ComposeView(files, layout, order[0]);
      && Keyed(c.files) && (forall i :: 0 <= i < |order[1..]| ==> order[1..][i] in c.files)
      && BuildViews(files, layout, order, views) ==
           if c.err.Some? then Built(c.files, map[], c.err) else BuildViews(c.files, layout, order[1..], views[order[0] := c.tmpl])
  {
  }

  /** The view loop builds one view per name it visits, or nothing. */
  lemma {:induction false} BuildViewsKeys(files: Files, layout: TemplateSet, order: seq<string>, views: map<string, TemplateSet>)
    requires Keyed(files)
    requires forall i :: 0 <= i < |order| ==> order[i] in files
    ensures var b := BuildViews(files, layout, order, views);
      && (b.err.None? ==> b.views.Keys == views.Keys + Elements(order))
      && (b.err.Some? ==> b.views == map[])
    decreases |order|
  {
    if order != [] {
      var c := ComposeView(files, layout, order[0]);
      BuildViewsStep(files, layout, order, views);
      if c.err.None? {
        BuildViewsKeys(c.files, layout, order[1..], views[order[0] := c.tmpl]);
        ElementsCons(order);
      }
    }
  }

  function Elements(order: seq<string>): set<string>
  {
    set i | 0 <= i < |order| :: order[i]
  }

  lemma ElementsCons(order: seq<string>)
    requires order != []
    ensures Elements(order) == {order[0]} + Elements(order[1..])
  {
    forall k | k in Elements(order) ensures k in {order[0]} + Elements(order[1..]) {
      var i :| 0 <= i < |order| && order[i] == k;
      if i > 0 { assert order[1..][i - 1] == k; }
    }
    forall k | k in Elements(order[1..]) ensures k in Elements(order) {
      var i :| 0 <= i < |order[1..]| && order[1..][i] == k;
      assert order[i + 1] == k;
    }
  }

  /** newEngine builds one view per registry key, or fails as a whole;
      its failures are the layout's, wrapped, or a view's. */
  lemma ConstructBuildsEveryView(files: Files, parsed: Parse, raw: string, order: seq<string>)
    requires Keyed(files)
    requires forall i :: 0 <= i < |order| ==> order[i] in files
    requires forall k :: k in files ==> k in order
    ensures var b := Construct(files, parsed, raw, order);
      && (b.err.None? ==> b.views.Keys == files.Keys)
      && (b.err.Some? ==> b.views == map[])
      && (ComposeLayout(files, parsed, raw).err.Some? ==>
            b.err == Some(Wrapped(ParsingLayout, ComposeLayout(files, parsed, raw).err.value)))
  {
    var l := ComposeLayout(files, parsed, raw);
    if l.err.None? {
      BuildViewsKeys(l.files, l.tmpl, order, map[]);
      forall k | k in files ensures k in Elements(order) {
        var i :| 0 <= i < |order| && order[i] == k;
      }
    }
  }

  // ---------------------------------------------------------------------
  // Mutual partial references

  /** Some reachable action of a tree is a marker. */
  predicate HasMarker(ns: seq<Node>)
  {
    exists i :: 0 <= i < |ActionsIn(ns)| && IsMarker(ActionsIn(ns)[i])
  }

  /** Some reachable action of a tree is {{partial "target" ...}}. */
  predicate PartialRef(ns: seq<Node>, target: string)
  {
    exists i :: 0 <= i < |ActionsIn(ns)| && IsMarker(ActionsIn(ns)[i]) && Callee(ActionsIn(ns)[i]) == PartialFunc.String()
      && GetActionArgs(ActionsIn(ns)[i].cmds[0]).file == target
  }

  lemma PartialRefMarked(ns: seq<Node>, target: string)
    requires PartialRef(ns, target)
    ensures HasMarker(ns)
  {
    var i :| 0 <= i < |ActionsIn(ns)| && IsMarker(ActionsIn(ns)[i]) && Callee(ActionsIn(ns)[i]) == PartialFunc.String()
      && GetActionArgs(ActionsIn(ns)[i].cmds[0]).file == target;
  }

  /** Reaching a registry entry that still holds a marker makes the
      reference loop fail: the entry is rewritten as a partial, and a
      partial may hold no marker. */
  lemma {:induction false} GraftRefsRejectsMarked(files: Files, tmpl: TemplateSet, refs: seq<NestedFile>, fromLayout: bool, x: string)
    requires x in files && x in Names(refs) && HasMarker(files[x].root)
    ensures GraftRefs(files, tmpl, refs, fromLayout).err.Some?
    decreases |refs|
  {
    var ref := refs[0];
    NamesCons(refs);
    if ref.name == x {
      var t := files[x].(typ := PartialType);
      var i :| 0 <= i < |ActionsIn(t.root)| && IsMarker(ActionsIn(t.root)[i]);
      PartialRejectsMarkers(t, t.root, i);
    } else if ref.name !in files {
      if !Required(ref, fromLayout) {
        GraftRefsRejectsMarked(files, tmpl[ref.name := []], refs[1..], fromLayout, x);
      }
    } else {
      var t := files[ref.name].(typ := PartialType);
      var p := Processed(t);
      if p.err.None? {
        GraftRefsRejectsMarked(files[ref.name := t.(root := p.root)], tmpl[ref.name := p.root], refs[1..], fromLayout, x);
      }
    }
  }

  /** A view that references y as a partial fails while y's entry still
      holds a marker. */
  lemma ComposeViewRejectsRef(files: Files, layout: TemplateSet, x: string, y: string)
    requires x in files && files[x].name == x && y in files && x != y
    requires PartialRef(files[x].root, y) && HasMarker(files[y].root)
    ensures ComposeView(files, layout, x).err.Some?
  {
    var body := files[x].(typ := ViewType);
    var p := Processed(body);
    if p.err.None? {
      var i :| 0 <= i < |ActionsIn(body.root)| && IsMarker(ActionsIn(body.root)[i])
        && Callee(ActionsIn(body.root)[i]) == PartialFunc.String() && GetActionArgs(ActionsIn(body.root)[i].cmds[0]).file == y;
      PartialActionReferenced(body, i);
      var j :| 0 <= j < |p.ts| && p.ts[j] == NestedFile(y, PartialFunc);
      assert y in Names(p.ts);
      GraftRefsRejectsMarked(files[x := body.(root := p.root)], layout, p.ts, false, y);
    }
  }

  /** Composing another view without error leaves an entry that holds a
      marker as it was. */
  lemma ComposeViewKeepsMarked(files: Files, layout: TemplateSet, name: string, x: string)
    requires name in files && files[name].name == name && x in files && x != name && HasMarker(files[x].root)
    requires ComposeView(files, layout, name).err.None?
    ensures ComposeView(files, layout, name).files[x] == files[x]
  {
    ComposeViewParts(files, layout, name);
    var p := Processed(files[name].(typ := ViewType));
    var files1 := files[name := AsView(files[name])];
    GraftRefsFiles(files1, layout, p.ts, false);
    if x in Names(p.ts) {
      GraftRefsRejectsMarked(files1, layout, p.ts, false, x);
    }
  }

  /** The view loop fails once it reaches either of two entries that
      reference each other as partials. */
  lemma {:induction false} BuildViewsRejectsMutual(files: Files, layout: TemplateSet, order: seq<string>,
                                                   views: map<string, TemplateSet>, a: string, b: string)
    requires Keyed(files)
    requires forall i :: 0 <= i < |order| ==> order[i] in files
    requires a in files && b in files && a != b
    requires PartialRef(files[a].root, b) && PartialRef(files[b].root, a)
    requires a in order || b in order
    ensures BuildViews(files, layout, order, views).err.Some?
    decreases |order|
  {
    var name := order[0];
    if name == a {
      FirstRejects(files, layout, order, views, a, b);
    } else if name == b {
      FirstRejects(files, layout, order, views, b, a);
    } else {
      BuildViewsStep(files, layout, order, views);
      var c := ComposeView(files, layout, name);
      if c.err.None? {
        MutualKept(files, layout, name, a, b);
        assert a in order[1..] || b in order[1..];
        BuildViewsRejectsMutual(c.files, layout, order[1..], views[name := c.tmpl], a, b);
      }
    }
  }

  /** The view loop fails at once when its first view x references y,
      which references x back. */
  lemma FirstRejects(files: Files, layout: TemplateSet, order: seq<string>, views: map<string, TemplateSet>, x: string, y: string)
    requires Keyed(files) && order != [] && order[0] == x
    requires forall i :: 0 <= i < |order| ==> order[i] in files
    requires y in files && x != y
    requires PartialRef(files[x].root, y) && PartialRef(files[y].root, x)
    ensures BuildViews(files, layout, order, views).err.Some?
  {
    PartialRefMarked(files[y].root, x);
    ComposeViewRejectsRef(files, layout, x, y);
    BuildViewsStep(files, layout, order, views);
  }

  /** Composing a third view leaves two entries that reference each other
      as they were. */
  lemma MutualKept(files: Files, layout: TemplateSet, name: string, a: string, b: string)
    requires name in files && files[name].name == name && a in files && b in files && name != a && name != b
    requires PartialRef(files[a].root, b) && PartialRef(files[b].root, a)
    requires ComposeView(files, layout, name).err.None?
    ensures var c := ComposeView(files, layout, name);
      a in c.files && b in c.files && PartialRef(c.files[a].root, b) && PartialRef(c.files[b].root, a)
  {
    PartialRefMarked(files[a].root, b);
    PartialRefMarked(files[b].root, a);
    ComposeViewKeepsMarked(files, layout, name, a);
    ComposeViewKeepsMarked(files, layout, name, b);
  }

  /** Two templates that reference each other as partials make newEngine
      fail, whatever order it visits the registry in: the first of them
      composed, as a view or as a partial, still meets the other's marker. */
  lemma MutualPartialsRejected(files: Files, parsed: Parse, raw: string, order: seq<string>, a: string, b: string)
    requires Keyed(files)
    requires forall i :: 0 <= i < |order| ==> order[i] in files
    requires forall k :: k in files ==> k in order
    requires a in files && b in files && a != b
    requires PartialRef(files[a].root, b) && PartialRef(files[b].root, a)
    ensures Construct(files, parsed, raw, order).err.Some?
  {
    var l := ComposeLayout(files, parsed, raw);
    if l.err.None? {
      var t := TemplateFile(LayoutName, parsed.root, parsed.defines, LayoutType, raw);
      var p := Processed(t);
      ComposeLayoutContents(files, parsed.root, parsed.defines, raw);
      assert HasMarker(files[a].root) && HasMarker(files[b].root);
      if a in Names(p.ts) {
        GraftRefsRejectsMarked(files, Templates(t.(root := p.root)), p.ts, true, a);
      }
      if b in Names(p.ts) {
        GraftRefsRejectsMarked(files, Templates(t.(root := p.root)), p.ts, true, b);
      }
      BuildViewsRejectsMutual(l.files, l.tmpl, order, map[], a, b);
    }
  }

  // ---------------------------------------------------------------------
  // The view loop without shared state

  /** The view loop with every view composed against the registry as the
      layout step left it, so that no view sees the roles and rewrites of
      the views composed before it. */
  function BuildViewsFromRegistry(files: Files, layout: TemplateSet, order: seq<string>, views: map<string, TemplateSet>): (b: Built)
    requires Keyed(files)
    requires forall i :: 0 <= i < |order| ==> order[i] in files
    decreases |order|
  {
    if order == [] then Built(files, views, None)
    else
      var c := ComposeView(files, layout, order[0]);
      if c.err.Some? then Built(files, map[], c.err)
      else BuildViewsFromRegistry(files, layout, order[1..], views[order[0] := c.tmpl])
  }

  /** newEngine with the view loop above. */
  function ConstructFromRegistry(files: Files, parsed: Parse, raw: string, order: seq<string>): Built
    requires Keyed(files)
    requires forall i :: 0 <= i < |order| ==> order[i] in files
  {
    var l := ComposeLayout(files, parsed, raw);
    if l.err.Some? then Built(l.files, map[], Some(Wrapped(ParsingLayout, l.err.value)))
    else BuildViewsFromRegistry(l.files, l.tmpl, order, map[])
  }

  /** The views a registry composes on their own, by name. */
  function Composable(files: Files, layout: TemplateSet, names: set<string>): (r: map<string, TemplateSet>)
    requires Keyed(files) && names <= files.Keys
    ensures r.Keys == names
  {
    map k | k in names :: ComposeView(files, layout, k).tmpl
  }

  lemma ElementsIn(order: seq<string>, files: Files)
    requires forall i :: 0 <= i < |order| ==> order[i] in files
    ensures Elements(order) <= files.Keys
  {
  }

  lemma OverlayCons<V>(views: map<string, V>, k: string, v: V, all: map<string, V>, tail: map<string, V>)
    requires all.Keys == {k} + tail.Keys && all[k] == v
    requires forall j :: j in tail ==> all[j] == tail[j]
    ensures views[k := v] + tail == views + all
  {
  }

  /** One turn of that loop. */
  lemma RegistryViewStep(files: Files, layout: TemplateSet, order: seq<string>, views: map<string, TemplateSet>)
    requires Keyed(files) && order != []
    requires forall i :: 0 <= i < |order| ==> order[i] in files
    ensures var c := ComposeView(files, layout, order[0]);
      BuildViewsFromRegistry(files, layout, order, views) ==
        if c.err.Some? then Built(files, map[], c.err) else BuildViewsFromRegistry(files, layout, order[1..], views[order[0] := c.tmpl])
  {
  }

  /** That loop succeeds exactly when every view it visits composes on
      its own. */
  lemma {:induction false} BuildViewsFromRegistrySucceeds(files: Files, layout: TemplateSet, order: seq<string>, views: map<string, TemplateSet>)
    requires Keyed(files)
    requires forall i :: 0 <= i < |order| ==> order[i] in files
    ensures BuildViewsFromRegistry(files, layout, order, views).err.None? <==>
      forall i :: 0 <= i < |order| ==> ComposeView(files, layout, order[i]).err.None?
    decreases |order|
  {
    if order != [] {
      var c := ComposeView(files, layout, order[0]);
      RegistryViewStep(files, layout, order, views);
      BuildViewsFromRegistrySucceeds(files, layout, order[1..], views[order[0] := c.tmpl]);
      if c.err.None? {
        forall i | 1 <= i < |order|
          ensures ComposeView(files, layout, order[i]).err.None? <==> ComposeView(files, layout, order[1..][i - 1]).err.None?
        {
          assert order[i] == order[1..][i - 1];
        }
      }
    }
  }

  /** On success that loop holds each view's own composition. */
  lemma {:induction false} BuildViewsFromRegistryViews(files: Files, layout: TemplateSet, order: seq<string>, views: map<string, TemplateSet>)
    requires Keyed(files)
    requires forall i :: 0 <= i < |order| ==> order[i] in files
    requires BuildViewsFromRegistry(files, layout, order, views).err.None?
    ensures Elements(order) <= files.Keys
    ensures BuildViewsFromRegistry(files, layout, order, views).views == views + Composable(files, layout, Elements(order))
    decreases |order|
  {
    ElementsIn(order, files);
    if order == [] {
      assert Elements(order) == {};
    } else {
      ElementsCons(order);
      var c := ComposeView(files, layout, order[0]);
      BuildViewsFromRegistryViews(files, layout, order[1..], views[order[0] := c.tmpl]);
      var all := Composable(files, layout, Elements(order));
      var tail := Composable(files, layout, Elements(order[1..]));
      OverlayCons(views, order[0], c.tmpl, all, tail);
    }
  }

  /** With the views composed against the registry, whether newEngine
      succeeds and what it builds do not depend on the order it visits
      the registry in. */
  lemma ConstructFromRegistryOrderFree(files: Files, parsed: Parse, raw: string, order1: seq<string>, order2: seq<string>)
    requires Keyed(files)
    requires forall i :: 0 <= i < |order1| ==> order1[i] in files
    requires forall i :: 0 <= i < |order2| ==> order2[i] in files
    requires Elements(order1) == Elements(order2)
    ensures var b1 := ConstructFromRegistry(files, parsed, raw, order1);
      var b2 := ConstructFromRegistry(files, parsed, raw, order2);
      && (b1.err.None? <==> b2.err.None?)
      && (b1.err.None? ==> b1.views == b2.views)
  {
    var l := ComposeLayout(files, parsed, raw);
    if l.err.None? {
      BuildViewsFromRegistrySucceeds(l.files, l.tmpl, order1, map[]);
      BuildViewsFromRegistrySucceeds(l.files, l.tmpl, order2, map[]);
      assert forall i :: 0 <= i < |order1| ==> order1[i] in Elements(order2);
      assert forall i :: 0 <= i < |order2| ==> order2[i] in Elements(order1);
      if BuildViewsFromRegistry(l.files, l.tmpl, order1, map[]).err.None? {
        BuildViewsFromRegistryViews(l.files, l.tmpl, order1, map[]);
        BuildViewsFromRegistryViews(l.files, l.tmpl, order2, map[]);
      }
    }
  }

  // ---------------------------------------------------------------------
  // Composition, as the source performs it

  /** The registry of parsed template files. Its entries are shared:
      composing stamps roles on them and rewrites their trees in place. */
  class Registry {
    var files: Files

    constructor (files: Files)
      ensures this.files == files
    {
      this.files := files;
    }

    /** parsePartial on an entry already stamped by its caller: its tree
        is rewritten in place. */
    method ParsePartial(name: string) returns (err: Option<PositionError>)
      requires name in files
      modifies this
      ensures files == old(files)[name := old(files)[name].(root := Processed(old(files)[name]).root)]
      ensures err == Processed(old(files)[name]).err
    {
      var root, _, e := ProcessTree(files[name]);
      files := files[name := files[name].(root := root)];
      return e;
    }

    /** One reference of the loop shared by parseLayout and parseView:
        looked up, stamped partial, rewritten and grafted. */
    method GraftOne(tmpl: TemplateSet, ref: NestedFile, fromLayout: bool) returns (out: TemplateSet, err: Option<Error>)
      modifies this
      ensures var c := GraftRefs(old(files), tmpl, [ref], fromLayout);
        files == c.files && (err.Some? <==> c.err.Some?) && (err.Some? ==> err == c.err)
      ensures err.None? ==> GraftRefs(old(files), tmpl, [ref], fromLayout).tmpl == out
    {
      GraftRefsSingle(files, tmpl, ref, fromLayout);
      if ref.name !in files {
        if Required(ref, fromLayout) {
          return map[], Some(Wrapped(ParsingTemplate(ref.name), NotFound));
        }
        return tmpl[ref.name := []], None;
      }
      files := files[ref.name := files[ref.name].(typ := PartialType)];
      var e := ParsePartial(ref.name);
      if e.Some? {
        return map[], Some(Wrapped(ParsingPartial(ref.name), Positioned(e.value)));
      }
      return tmpl[ref.name := files[ref.name].root], None;
    }

    /** The reference loop shared by parseLayout and parseView. */
    method GraftAll(tmpl: TemplateSet, refs: seq<NestedFile>, fromLayout: bool) returns (out: TemplateSet, err: Option<Error>)
      modifies this
      ensures Composed(files, out, err) == GraftRefs(old(files), tmpl, refs, fromLayout)
    {
      out := tmpl;
      for i := 0 to |refs|
        invariant GraftRefs(files, out, refs[i..], fromLayout) == GraftRefs(old(files), tmpl, refs, fromLayout)
      {
        GraftRefsSplit(files, out, refs[i..], fromLayout);
        assert refs[i..][..1] == [refs[i]] && refs[i..][1..] == refs[i + 1..];
        var e;
        out, e := GraftOne(out, refs[i], fromLayout);
        if e.Some? {
          return map[], e;
        }
      }
      assert refs[|refs|..] == [];
      return out, None;
    }

    /** parseLayout. */
    method ParseLayout(parsed: Parse, raw: string) returns (layout: TemplateSet, err: Option<Error>)
      modifies this
      ensures Composed(files, layout, err) == ComposeLayout(old(files), parsed, raw)
    {
      if parsed.ParseError? {
        return map[], Some(ParseFailed(LayoutName));
      }
      var t := TemplateFile(LayoutName, parsed.root, parsed.defines, LayoutType, raw);
      var root, refs, e := ProcessTree(t);
      if e.Some? {
        return map[], Some(Wrapped(ProcessingLayout, Positioned(e.value)));
      }
      t := t.(root := root);
      layout, err := GraftAll(Templates(t), refs, true);
    }

    /** The last loop of parseView, over the templates of the view's file
        with its own tree taken last. */
    static method AddTemplates(view: TemplateSet, name: string, own: TemplateSet) returns (out: TemplateSet)
      requires name in own
      ensures out == AddDefined(view, name, own)
    {
      out := view;
      var todo := own.Keys - {name};
      while todo != {}
        invariant todo <= own.Keys - {name}
        invariant out == view + (own - {name} - todo)
        decreases todo
      {
        var k :| k in todo;
        out := out[k := own[k]];
        todo := todo - {k};
      }
      out := out[BodyName := own[name]];
    }

    /** parseView. */
    method ParseView(layout: TemplateSet, name: string) returns (view: TemplateSet, err: Option<Error>)
      requires name in files && files[name].name == name
      modifies this
      ensures Composed(files, view, err) == ComposeView(old(files), layout, name)
    {
      view := layout;
      files := files[name := files[name].(typ := ViewType)];
      var root, refs, e := ProcessTree(files[name]);
      files := files[name := files[name].(root := root)];
      if e.Some? {
        return map[], Some(Wrapped(ParsingView(name), Positioned(e.value)));
      }
      ghost var body := old(files)[name].(typ := ViewType);
      assert files == old(files)[name := body.(root := Processed(body).root)];
      view, err := GraftAll(view, refs, false);
      if err.Some? {
        return;
      }
      ghost var g := GraftRefs(old(files)[name := body.(root := Processed(body).root)], layout, Processed(body).ts, false);
      assert g.err.None? && g.files == files && g.tmpl == view;
      view := AddTemplates(view, name, Templates(files[name]));
      assert ComposeView(old(files), layout, name) == Composed(g.files, AddDefined(g.tmpl, name, Templates(g.files[name])), None);
    }

    /** The layout and view steps of newEngine, visiting the registry's
        keys in the order given. */
    method NewEngine(parsed: Parse, raw: string, order: seq<string>) returns (views: map<string, TemplateSet>, err: Option<Error>)
      requires Keyed(files)
      requires forall i :: 0 <= i < |order| ==> order[i] in files
      modifies this
      ensures Built(files, views, err) == Construct(old(files), parsed, raw, order)
    {
      var layout;
      layout, err := ParseLayout(parsed, raw);
      if err.Some? {
        return map[], Some(Wrapped(ParsingLayout, err.value));
      }
      views := map[];
      for i := 0 to |order|
        invariant files.Keys == old(files).Keys && Keyed(files)
        invariant BuildViews(files, layout, order[i..], views) == Construct(old(files), parsed, raw, order)
      {
        assert order[i..][1..] == order[i + 1..];
        var view, e := ParseView(layout, order[i]);
        if e.Some? {
          return map[], e;
        }
        views := views[order[i] := view];
      }
      assert order[|order|..] == [];
      return views, None;
    }
  }
}
