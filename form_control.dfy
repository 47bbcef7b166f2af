/**
 * The class strings the form builder's `text_field` uses, for the
 * horizontal and the vertical layout: the options in force for a field are
 * the form's options scoped with the field call's own `bootstrap:` hash.
 */
module FormControl {
  import opened RubyValues
  import opened Options
  import ClassTokens

  /** Wrapper `div` class, `label` class ("" for none), and the class of the `div` around the input when there is one. */
  datatype ControlPlan = ControlPlan(wrapperClass: string, labelClass: string, controlWrapperClass: Option<string>)

  /** The `bootstrap:` hash inside a builder's or a field call's options; anything else counts as no hash. */
  function BootstrapFragment(options: Fragment): Fragment {
    if "bootstrap" in options && options["bootstrap"].Hash? then options["bootstrap"].entries else map[]
  }

  /** The options object a form builder is created with; a builder without a `bootstrap:` hash gets the defaults. */
  function FormOptions(builderOptions: Fragment): (r: BootstrapOptions)
    ensures BootstrapFragment(builderOptions) == map[] ==> r == Defaults
  {
    ScopedEmpty(Defaults);
    New(BootstrapFragment(builderOptions))
  }

  /** The options in force for one field: the form's, scoped with the call's `bootstrap:` hash; without one, the form's own. */
  function FieldOptions(form: BootstrapOptions, callOptions: Fragment): (r: BootstrapOptions)
    ensures BootstrapFragment(callOptions) == map[] ==> r == form
  {
    ScopedEmpty(form);
    Scoped(form, BootstrapFragment(callOptions))
  }

  /** `label: { hide: true }` (any truthy value) asks for a label that only screen readers see. */
  function LabelHidden(o: BootstrapOptions): (r: bool)
    ensures o.labelOptions == map[] ==> !r
  {
    "hide" in o.labelOptions && Truthy(o.labelOptions["hide"])
  }

  /** Built from a hash, the label is hidden exactly when the hash's `label:` hash has a truthy `hide`. */
  lemma NewLabelHidden(f: Fragment)
    ensures LabelHidden(New(f)) <==>
      "label" in f && f["label"].Hash? && "hide" in f["label"].entries && Truthy(f["label"].entries["hide"])
  {
    assert IsRecognisedKey("label");
    if "label" in f {
      assert Accepts("label", f["label"]) <==> f["label"].Hash? || f["label"] == Nil;
    }
  }

  function HorizontalPlan(o: BootstrapOptions): ControlPlan {
    var hidden := if LabelHidden(o) then ["sr-only"] else [];
    ControlPlan(
      "form-group row",
      ClassTokens.Join(hidden + ["col-form-label", o.labelColClass, o.labelAlignClass]),
      Some(ClassTokens.Join([o.controlColClass] + if LabelHidden(o) then [OffsetColClass(o)] else [])))
  }

  function VerticalPlan(o: BootstrapOptions): ControlPlan {
    ControlPlan("form-group", if LabelHidden(o) then "sr-only" else "", None)
  }

  /**
   * The class strings of `text_field`. A horizontal field gets a grid row,
   * a column div around the input, and column classes on the label; any
   * other layout except inline is rendered vertically, with no column
   * classes and no div around the input. Inline fields are not modelled.
   */
  function TextFieldPlan(form: BootstrapOptions, callOptions: Fragment): (r: Option<ControlPlan>)
    ensures r.None? <==> Inline(FieldOptions(form, callOptions))
    ensures Horizontal(FieldOptions(form, callOptions)) ==> r == Some(HorizontalPlan(FieldOptions(form, callOptions)))
    ensures r.Some? ==> (r.value.controlWrapperClass.Some? <==> Horizontal(FieldOptions(form, callOptions)))
    ensures r.Some? ==>
      r.value.wrapperClass == if Horizontal(FieldOptions(form, callOptions)) then "form-group row" else "form-group"
  {
    var o := FieldOptions(form, callOptions);
    if Horizontal(o) then Some(HorizontalPlan(o))
    else if Inline(o) then None
    else Some(VerticalPlan(o))
  }

  /**
   * In the horizontal layout the label carries `sr-only` (when hidden),
   * `col-form-label`, the label column classes and the alignment classes, in
   * that order; the input's div carries the control column classes followed,
   * when the label is hidden, by one offset class per label column class.
   */
  lemma HorizontalPlanTokens(o: BootstrapOptions)
    ensures ClassTokens.Split(HorizontalPlan(o).labelClass) ==
      (if LabelHidden(o) then ["sr-only"] else []) + ["col-form-label"]
      + ClassTokens.Split(o.labelColClass) + ClassTokens.Split(o.labelAlignClass)
    ensures HorizontalPlan(o).controlWrapperClass.Some?
    ensures ClassTokens.Split(HorizontalPlan(o).controlWrapperClass.value) ==
      ClassTokens.Split(o.controlColClass)
      + if LabelHidden(o) then ClassTokens.RewriteAll(ClassTokens.Split(o.labelColClass)) else []
  {
    LabelTokens(if LabelHidden(o) then ["sr-only"] else [], o.labelColClass, o.labelAlignClass);
    if LabelHidden(o) {
      ClassTokens.SplitJoinCons(o.controlColClass, [OffsetColClass(o)]);
    }
  }

  /** The label's classes in the horizontal layout, split back into tokens. */
  lemma LabelTokens(hidden: seq<string>, labelColClass: string, labelAlignClass: string)
    requires hidden == [] || hidden == ["sr-only"]
    ensures ClassTokens.Split(ClassTokens.Join(hidden + ["col-form-label", labelColClass, labelAlignClass])) ==
      hidden + ["col-form-label"] + ClassTokens.Split(labelColClass) + ClassTokens.Split(labelAlignClass)
  {
    var shown := ["col-form-label", labelColClass, labelAlignClass];
    ShownLabelTokens(labelColClass, labelAlignClass);
    if hidden == [] {
      assert hidden + shown == shown;
    } else {
      var srOnly := hidden[0];
      assert ' ' !in srOnly by {
        assert srOnly == "sr-only";
      }
      assert hidden == [srOnly];
      ClassTokens.SplitJoinWord(srOnly, shown);
    }
  }

  lemma ShownLabelTokens(labelColClass: string, labelAlignClass: string)
    ensures ClassTokens.Split(ClassTokens.Join(["col-form-label", labelColClass, labelAlignClass])) ==
      ["col-form-label"] + ClassTokens.Split(labelColClass) + ClassTokens.Split(labelAlignClass)
  {
    var tail := [labelColClass, labelAlignClass];
    var formLabel := "col-form-label";
    assert tail == [labelColClass] + [labelAlignClass];
    ClassTokens.SplitJoinCons(labelColClass, [labelAlignClass]);
    assert [formLabel, labelColClass, labelAlignClass] == [formLabel] + tail;
    assert ' ' !in formLabel;
    ClassTokens.SplitJoinWord(formLabel, tail);
  }

  /** In the vertical layout only a hidden label gets a class, `sr-only`, and the input has no div of its own. */
  lemma VerticalPlanClasses(form: BootstrapOptions, callOptions: Fragment)
    requires !Horizontal(FieldOptions(form, callOptions)) && !Inline(FieldOptions(form, callOptions))
    ensures TextFieldPlan(form, callOptions) == Some(ControlPlan(
      "form-group",
      if LabelHidden(FieldOptions(form, callOptions)) then "sr-only" else "",
      None))
  {
  }
}
