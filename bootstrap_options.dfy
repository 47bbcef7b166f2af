/**
 * `ComfyBootstrapForm::BootstrapOptions`: the form-wide (or field-wide)
 * Bootstrap settings, built from an options hash with defaults, and the
 * non-mutating `scoped` override.
 *
 * A recognised key takes the value given for it, coerced to the key's
 * type; a key the object does not know is ignored (there is no accessor
 * for it afterwards), and so is a value the key's type cannot hold.
 */
module Options {
  import opened RubyValues
  import ClassTokens

  datatype BootstrapOptions = BootstrapOptions(
    disabled: bool,
    layout: string,
    labelColClass: string,
    controlColClass: string,
    labelAlignClass: string,
    inlineMarginClass: string,
    labelOptions: map<string, Value>,
    append: Option<string>,
    prepend: Option<string>,
    help: Option<string>,
    checkInline: bool)

  /** The values an options object has when its hash leaves a key out. */
  const Defaults := BootstrapOptions(
    disabled := false,
    layout := "vertical",
    labelColClass := "col-sm-2",
    controlColClass := "col-sm-10",
    labelAlignClass := "text-sm-right",
    inlineMarginClass := "mr-sm-2",
    labelOptions := map[],
    append := None,
    prepend := None,
    help := None,
    checkInline := false)

  /** Keys coerced to true/false by truthiness. */
  predicate IsFlagKey(k: string) {
    k == "disabled" || k == "check_inline"
  }

  /** Keys that hold a string. */
  predicate IsTextKey(k: string) {
    k == "layout" || k == "label_col_class" || k == "control_col_class"
    || k == "label_align_class" || k == "inline_margin_class"
  }

  /** Keys that hold a string or nil. */
  predicate IsOptionalTextKey(k: string) {
    k == "append" || k == "prepend" || k == "help"
  }

  /** The keys an options object has an accessor for. */
  predicate IsRecognisedKey(k: string) {
    IsFlagKey(k) || IsTextKey(k) || IsOptionalTextKey(k) || k == "label"
  }

  /** Whether the value `v` given for key `k` is taken: flags take anything, the others a value of their type (or nil where nil is allowed). */
  predicate Accepts(k: string, v: Value) {
    if IsFlagKey(k) then true
    else if IsTextKey(k) then v.Str?
    else if IsOptionalTextKey(k) then v.Str? || v.Nil?
    else if k == "label" then v.Hash? || v.Nil?
    else false
  }

  /** The value the accessor for `k` reads back after `v` was taken for it. */
  function Coerce(k: string, v: Value): Value {
    if IsFlagKey(k) then Bool(Truthy(v))
    else if k == "label" && v == Nil then Hash(map[])
    else v
  }

  /** The entries of a hash that an options object takes. */
  function Accepted(f: Fragment): (r: Fragment)
    ensures forall k :: k in r <==> k in f && Accepts(k, f[k])
    ensures forall k :: k in r ==> r[k] == f[k]
  {
    map k | k in f && Accepts(k, f[k]) :: f[k]
  }

  function OptionalText(o: Option<string>): Value {
    match o
    case Some(s) => Str(s)
    case None => Nil
  }

  /** Reading `options.<k>`: the stored value, or None when there is no such accessor. */
  function Get(o: BootstrapOptions, k: string): (r: Option<Value>)
    ensures r.Some? <==> IsRecognisedKey(k)
  {
    if k == "disabled" then Some(Bool(o.disabled))
    else if k == "layout" then Some(Str(o.layout))
    else if k == "label_col_class" then Some(Str(o.labelColClass))
    else if k == "control_col_class" then Some(Str(o.controlColClass))
    else if k == "label_align_class" then Some(Str(o.labelAlignClass))
    else if k == "inline_margin_class" then Some(Str(o.inlineMarginClass))
    else if k == "label" then Some(Hash(o.labelOptions))
    else if k == "append" then Some(OptionalText(o.append))
    else if k == "prepend" then Some(OptionalText(o.prepend))
    else if k == "help" then Some(OptionalText(o.help))
    else if k == "check_inline" then Some(Bool(o.checkInline))
    else None
  }

  /** Two options objects whose accessors all read the same are the same object. */
  lemma GetDeterminesOptions(a: BootstrapOptions, b: BootstrapOptions)
    requires forall k :: IsRecognisedKey(k) ==> Get(a, k) == Get(b, k)
    ensures a == b
  {
    assert a.disabled == b.disabled by { assert IsRecognisedKey("disabled"); }
    assert a.layout == b.layout by { assert IsRecognisedKey("layout"); }
    assert a.labelColClass == b.labelColClass by { assert IsRecognisedKey("label_col_class"); }
    assert a.controlColClass == b.controlColClass by { assert IsRecognisedKey("control_col_class"); }
    assert a.labelAlignClass == b.labelAlignClass by { assert IsRecognisedKey("label_align_class"); }
    assert a.inlineMarginClass == b.inlineMarginClass by { assert IsRecognisedKey("inline_margin_class"); }
    assert a.labelOptions == b.labelOptions by { assert IsRecognisedKey("label"); }
    assert a.append == b.append by { assert IsRecognisedKey("append"); }
    assert a.prepend == b.prepend by { assert IsRecognisedKey("prepend"); }
    assert a.help == b.help by { assert IsRecognisedKey("help"); }
    assert a.checkInline == b.checkInline by { assert IsRecognisedKey("check_inline"); }
  }

  function FlagOr(f: Fragment, k: string, otherwise: bool): bool {
    if k in f then Truthy(f[k]) else otherwise
  }

  function TextOr(f: Fragment, k: string, otherwise: string): string {
    if k in f && f[k].Str? then f[k].s else otherwise
  }

  function OptionalTextOr(f: Fragment, k: string, otherwise: Option<string>): Option<string> {
    if k in f && f[k].Str? then Some(f[k].s)
    else if k in f && f[k].Nil? then None
    else otherwise
  }

  function HashOr(f: Fragment, k: string, otherwise: map<string, Value>): map<string, Value> {
    if k in f && f[k].Hash? then f[k].entries
    else if k in f && f[k].Nil? then map[]
    else otherwise
  }

  /**
   * `options.scoped(f)`: a new options object in which each key of `f` that
   * is taken overrides the receiver's value and every other accessor reads
   * as on the receiver. The receiver is a value and stays as it was.
   */
  function Scoped(o: BootstrapOptions, f: Fragment): (r: BootstrapOptions)
    ensures forall k {:trigger Get(r, k)} :: IsRecognisedKey(k) ==>
      Get(r, k) == if k in f && Accepts(k, f[k]) then Some(Coerce(k, f[k])) else Get(o, k)
    ensures forall k :: !IsRecognisedKey(k) ==> Get(r, k) == None
  {
    BootstrapOptions(
      disabled := FlagOr(f, "disabled", o.disabled),
      layout := TextOr(f, "layout", o.layout),
      labelColClass := TextOr(f, "label_col_class", o.labelColClass),
      controlColClass := TextOr(f, "control_col_class", o.controlColClass),
      labelAlignClass := TextOr(f, "label_align_class", o.labelAlignClass),
      inlineMarginClass := TextOr(f, "inline_margin_class", o.inlineMarginClass),
      labelOptions := HashOr(f, "label", o.labelOptions),
      append := OptionalTextOr(f, "append", o.append),
      prepend := OptionalTextOr(f, "prepend", o.prepend),
      help := OptionalTextOr(f, "help", o.help),
      checkInline := FlagOr(f, "check_inline", o.checkInline))
  }

  /** `BootstrapOptions.new(f)`: every accessor reads the value taken from `f`, or its default. */
  function New(f: Fragment): (r: BootstrapOptions)
    ensures forall k {:trigger Get(r, k)} :: IsRecognisedKey(k) ==>
      Get(r, k) == if k in f && Accepts(k, f[k]) then Some(Coerce(k, f[k])) else Get(Defaults, k)
    ensures forall k :: !IsRecognisedKey(k) ==> Get(r, k) == None
  {
    Scoped(Defaults, f)
  }

  /** `horizontal?`: a horizontal form is never inline. */
  function Horizontal(o: BootstrapOptions): (r: bool)
    ensures r ==> !Inline(o)
  {
    o.layout == "horizontal"
  }

  /** `inline?`: the default layout, `"vertical"`, is not inline. */
  function Inline(o: BootstrapOptions): (r: bool)
    ensures r ==> o.layout != "vertical"
  {
    o.layout == "inline"
  }

  /** `offset_col_class`: the label column classes with each `col-` grid token turned into its `offset-` class. */
  function OffsetColClass(o: BootstrapOptions): (r: string)
    ensures ClassTokens.Split(r) == ClassTokens.RewriteAll(ClassTokens.Split(o.labelColClass))
  {
    ClassTokens.OffsetClassesTokens(o.labelColClass);
    ClassTokens.OffsetClasses(o.labelColClass)
  }

  /** Scoping with an empty hash changes nothing. */
  lemma ScopedEmpty(o: BootstrapOptions)
    ensures Scoped(o, map[]) == o
  {
    GetDeterminesOptions(Scoped(o, map[]), o);
  }

  /** Only the entries that are taken matter: unknown keys and values of the wrong type are ignored. */
  lemma ScopedIgnoresRest(o: BootstrapOptions, f: Fragment)
    ensures Scoped(o, f) == Scoped(o, Accepted(f))
  {
    GetDeterminesOptions(Scoped(o, f), Scoped(o, Accepted(f)));
  }

  /** An unknown key is ignored, with whatever value and beside whatever other keys. */
  lemma UnknownKeyIgnored(o: BootstrapOptions, f: Fragment, k: string, v: Value)
    requires !IsRecognisedKey(k)
    ensures Scoped(o, f[k := v]) == Scoped(o, f)
    ensures Get(Scoped(o, f[k := v]), k) == None
  {
    var g := f[k := v];
    forall key | IsRecognisedKey(key) ensures Get(Scoped(o, g), key) == Get(Scoped(o, f), key) {
      assert key != k;
      assert (key in g) == (key in f);
      assert key in f ==> g[key] == f[key];
    }
    GetDeterminesOptions(Scoped(o, g), Scoped(o, f));
  }

  /** Scoping twice is scoping once with the second hash's taken entries overriding the first's. */
  lemma ScopedTwice(o: BootstrapOptions, f: Fragment, g: Fragment)
    ensures Scoped(Scoped(o, f), g) == Scoped(o, Accepted(f) + Accepted(g))
  {
    var lhs, rhs := Scoped(Scoped(o, f), g), Scoped(o, Accepted(f) + Accepted(g));
    forall k | IsRecognisedKey(k) ensures Get(lhs, k) == Get(rhs, k) {
      assert Get(Scoped(o, f), k) == Get(Scoped(o, f), k);
    }
    GetDeterminesOptions(lhs, rhs);
  }

  /** The form-level hash followed by a field-level hash is the same as one hash in which the field's taken entries win. */
  lemma CascadeIsOneHash(formHash: Fragment, fieldHash: Fragment)
    ensures Scoped(New(formHash), fieldHash) == New(Accepted(formHash) + Accepted(fieldHash))
  {
    ScopedTwice(Defaults, formHash, fieldHash);
  }

  /** Scoping again with the same hash changes nothing more. */
  lemma ScopedIdempotent(o: BootstrapOptions, f: Fragment)
    ensures Scoped(Scoped(o, f), f) == Scoped(o, f)
  {
    var once := Scoped(o, f);
    forall k | IsRecognisedKey(k) ensures Get(Scoped(once, f), k) == Get(once, k) { }
    GetDeterminesOptions(Scoped(once, f), once);
  }

  /** `horizontal?` after scoping: set by a string `layout` in the hash, otherwise as on the receiver. */
  lemma ScopedHorizontal(o: BootstrapOptions, f: Fragment)
    ensures Horizontal(Scoped(o, f)) <==>
      if "layout" in f && f["layout"].Str? then f["layout"] == Str("horizontal") else Horizontal(o)
  {
    assert Get(Scoped(o, f), "layout") == Some(Str(Scoped(o, f).layout));
  }

  /** `inline?` after scoping: set by a string `layout` in the hash, otherwise as on the receiver. */
  lemma ScopedInline(o: BootstrapOptions, f: Fragment)
    ensures Inline(Scoped(o, f)) <==>
      if "layout" in f && f["layout"].Str? then f["layout"] == Str("inline") else Inline(o)
  {
    assert Get(Scoped(o, f), "layout") == Some(Str(Scoped(o, f).layout));
  }

  /** A new options object is horizontal (inline) exactly when its hash says `layout: "horizontal"` (`"inline"`); never both. */
  lemma NewLayoutPredicates(f: Fragment)
    ensures Horizontal(New(f)) <==> "layout" in f && f["layout"] == Str("horizontal")
    ensures Inline(New(f)) <==> "layout" in f && f["layout"] == Str("inline")
    ensures !(Horizontal(New(f)) && Inline(New(f)))
  {
    ScopedHorizontal(Defaults, f);
    ScopedInline(Defaults, f);
  }
}
