/** The cases of test/comfy_bootstrap_form/bootstrap_options_test.rb, stated about the model. */
module BootstrapOptionsTests {
  import opened RubyValues
  import opened Options
  import opened FormControl
  import ClassTokens

  /** `BootstrapOptions.new` with no hash gives the defaults. */
  lemma TestDefaults()
    ensures New(map[]) == Defaults
    ensures var o := New(map[]);
      && !o.disabled && o.layout == "vertical"
      && o.labelColClass == "col-sm-2" && o.controlColClass == "col-sm-10"
      && o.labelAlignClass == "text-sm-right" && o.inlineMarginClass == "mr-sm-2"
      && o.labelOptions == map[]
      && o.append == None && o.prepend == None && o.help == None
      && !o.checkInline
  {
    ScopedEmpty(Defaults);
  }

  /** Every recognised key reads back as given; `check_inline: "true"` reads back true. */
  lemma TestWithSetOptions()
    ensures var o := New(map[
        "disabled" := Bool(true),
        "layout" := Str("horizontal"),
        "label_col_class" := Str("col-md-4"),
        "control_col_class" := Str("col-md-8"),
        "label_align_class" := Str("text-md-left"),
        "inline_margin_class" := Str("mr-md-4"),
        "label" := Hash(map["text" := Str("test")]),
        "append" := Str("a"),
        "prepend" := Str("z"),
        "help" := Str("help text"),
        "check_inline" := Str("true")]);
      && o.disabled && o.layout == "horizontal"
      && o.labelColClass == "col-md-4" && o.controlColClass == "col-md-8"
      && o.labelAlignClass == "text-md-left" && o.inlineMarginClass == "mr-md-4"
      && o.labelOptions == map["text" := Str("test")]
      && o.append == Some("a") && o.prepend == Some("z") && o.help == Some("help text")
      && o.checkInline
  {
  }

  /** An unknown key does not fail and leaves no accessor behind. */
  lemma TestWithSetInvalidOptions()
    ensures New(map["invalid" := Str("invalid")]) == Defaults
    ensures Get(New(map["invalid" := Str("invalid")]), "invalid") == None
  {
    UnknownKeyIgnored(Defaults, map[], "invalid", Str("invalid"));
    ScopedEmpty(Defaults);
  }

  lemma TestHorizontal()
    ensures !Horizontal(New(map[]))
    ensures Horizontal(New(map["layout" := Str("horizontal")]))
  {
  }

  lemma TestInline()
    ensures !Inline(New(map[]))
    ensures Inline(New(map["layout" := Str("inline")]))
  {
  }

  /** `offset_col_class` of the default label column class. */
  lemma TestOffsetColClassDefault()
    ensures OffsetColClass(New(map[])) == "offset-sm-2"
  {
    var o := New(map[]);
    assert o.labelColClass == "col-sm-2";
    OffsetOfColSm2(o.labelColClass);
  }

  /** `offset_col_class` of `label_col_class: "col-md-4"`. */
  lemma TestOffsetColClassMd4()
    ensures OffsetColClass(New(map["label_col_class" := Str("col-md-4")])) == "offset-md-4"
  {
    var o := New(map["label_col_class" := Str("col-md-4")]);
    assert o.labelColClass == "col-md-4";
    OffsetOfColMd4(o.labelColClass);
  }

  /** `offset_col_class` of `label_col_class: "col-sm-4 col-md-2"`: both tokens, in order. */
  lemma TestOffsetColClassResponsive()
    ensures OffsetColClass(New(map["label_col_class" := Str("col-sm-4 col-md-2")])) == "offset-sm-4 offset-md-2"
  {
    var o := New(map["label_col_class" := Str("col-sm-4 col-md-2")]);
    assert o.labelColClass == "col-sm-4 col-md-2";
    OffsetOfResponsive(o.labelColClass);
  }

  lemma OffsetOfColSm2(s: string)
    requires s == "col-sm-2"
    ensures ClassTokens.OffsetClasses(s) == "offset-sm-2"
  {
    assert s == ClassTokens.ColClass("sm", "2");
    OffsetOfOne(s, "sm", "2");
    assert ClassTokens.OffsetClass("sm", "2") == "offset-sm-2";
  }

  lemma OffsetOfColMd4(s: string)
    requires s == "col-md-4"
    ensures ClassTokens.OffsetClasses(s) == "offset-md-4"
  {
    assert s == ClassTokens.ColClass("md", "4");
    OffsetOfOne(s, "md", "4");
    assert ClassTokens.OffsetClass("md", "4") == "offset-md-4";
  }

  lemma OffsetOfResponsive(s: string)
    requires s == "col-sm-4 col-md-2"
    ensures ClassTokens.OffsetClasses(s) == "offset-sm-4 offset-md-2"
  {
    ResponsiveColumns(s);
    OffsetOfTwo(s, "sm", "4", "md", "2");
    ResponsiveOffsets();
  }

  lemma ResponsiveColumns(s: string)
    requires s == "col-sm-4 col-md-2"
    ensures s == ClassTokens.ColClass("sm", "4") + " " + ClassTokens.ColClass("md", "2")
  {
  }

  lemma ResponsiveOffsets()
    ensures ClassTokens.OffsetClass("sm", "4") + " " + ClassTokens.OffsetClass("md", "2") == "offset-sm-4 offset-md-2"
  {
  }

  /** The offset rewrite of one grid token. */
  lemma OffsetOfOne(s: string, breakpoint: string, width: string)
    requires ClassTokens.GridParts(breakpoint, width)
    requires ' ' !in breakpoint && ' ' !in width
    requires s == ClassTokens.ColClass(breakpoint, width)
    ensures ClassTokens.OffsetClasses(s) == ClassTokens.OffsetClass(breakpoint, width)
  {
    ClassTokens.SplitWord(s);
    ClassTokens.RewriteColClass(breakpoint, width);
  }

  /** The offset rewrite of two grid tokens. */
  lemma OffsetOfTwo(s: string, bp1: string, w1: string, bp2: string, w2: string)
    requires ClassTokens.GridParts(bp1, w1) && ClassTokens.GridParts(bp2, w2)
    requires ' ' !in bp1 && ' ' !in w1 && ' ' !in bp2 && ' ' !in w2
    requires s == ClassTokens.ColClass(bp1, w1) + " " + ClassTokens.ColClass(bp2, w2)
    ensures ClassTokens.OffsetClasses(s) == ClassTokens.OffsetClass(bp1, w1) + " " + ClassTokens.OffsetClass(bp2, w2)
  {
    var col1, col2 := ClassTokens.ColClass(bp1, w1), ClassTokens.ColClass(bp2, w2);
    OffsetOfOne(col1, bp1, w1);
    OffsetOfOne(col2, bp2, w2);
    ClassTokens.OffsetClassesAround(col1, col2);
  }

  /** `scoped(layout: "horizontal")` is horizontal; the receiver is not. */
  lemma TestScoped()
    ensures !Horizontal(New(map[]))
    ensures Horizontal(Scoped(New(map[]), map["layout" := Str("horizontal")]))
  {
  }

  /** The builder of the test's setup: `bootstrap: { layout: "horizontal", label: { hide: true } }`. */
  function SetupBuilderOptions(): Fragment {
    map["bootstrap" := Hash(map["layout" := Str("horizontal"), "label" := Hash(map["hide" := Bool(true)])])]
  }

  /** `text_field :email` under the global options. */
  lemma TestFormFieldsGlobalOptions()
    ensures TextFieldPlan(FormOptions(SetupBuilderOptions()), map[]) == Some(ControlPlan(
      "form-group row",
      "sr-only col-form-label col-sm-2 text-sm-right",
      Some("col-sm-10 offset-sm-2")))
  {
    var form := FormOptions(SetupBuilderOptions());
    ScopedEmpty(form);
    assert FieldOptions(form, map[]) == form;
    assert form.labelColClass == "col-sm-2" && form.controlColClass == "col-sm-10";
    assert form.labelAlignClass == "text-sm-right";
    assert Horizontal(form) && LabelHidden(form);
    HiddenHorizontalPlan(form);
  }

  /** The horizontal plan with a hidden label and the default column classes. */
  lemma HiddenHorizontalPlan(o: BootstrapOptions)
    requires Horizontal(o) && LabelHidden(o)
    requires o.labelColClass == "col-sm-2" && o.controlColClass == "col-sm-10" && o.labelAlignClass == "text-sm-right"
    ensures HorizontalPlan(o) == ControlPlan(
      "form-group row",
      "sr-only col-form-label col-sm-2 text-sm-right",
      Some("col-sm-10 offset-sm-2"))
  {
    assert ["sr-only"] + ["col-form-label", o.labelColClass, o.labelAlignClass]
      == ["sr-only", "col-form-label", o.labelColClass, o.labelAlignClass];
    assert HorizontalPlan(o).labelClass == ClassTokens.Join(["sr-only", "col-form-label", o.labelColClass, o.labelAlignClass]);
    HiddenLabelClass("sr-only", "col-form-label", o.labelColClass, o.labelAlignClass);
    OffsetOfColSm2(o.labelColClass);
    assert [o.controlColClass] + [OffsetColClass(o)] == [o.controlColClass, OffsetColClass(o)];
    HiddenControlClass(o.controlColClass, OffsetColClass(o));
  }

  lemma HiddenLabelClass(a: string, b: string, c: string, d: string)
    requires a == "sr-only" && b == "col-form-label" && c == "col-sm-2" && d == "text-sm-right"
    ensures ClassTokens.Join([a, b, c, d]) == "sr-only col-form-label col-sm-2 text-sm-right"
  {
    JoinFour(a, b, c, d);
    HiddenLabelSpelled(a, b, c, d);
  }

  lemma HiddenLabelSpelled(a: string, b: string, c: string, d: string)
    requires a == "sr-only" && b == "col-form-label" && c == "col-sm-2" && d == "text-sm-right"
    ensures a + " " + (b + " " + (c + " " + d)) == "sr-only col-form-label col-sm-2 text-sm-right"
  {
  }

  /** Four class lists joined, spelled out. */
  lemma JoinFour(a: string, b: string, c: string, d: string)
    ensures ClassTokens.Join([a, b, c, d]) == a + " " + (b + " " + (c + " " + d))
  {
    assert [c, d][1..] == [d];
    assert ClassTokens.Join([c, d]) == c + " " + d;
    assert [b, c, d][1..] == [c, d];
    assert ClassTokens.Join([b, c, d]) == b + " " + ClassTokens.Join([c, d]);
    assert [a, b, c, d][1..] == [b, c, d];
  }

  lemma HiddenControlClass(control: string, offset: string)
    requires control == "col-sm-10" && offset == "offset-sm-2"
    ensures ClassTokens.Join([control, offset]) == "col-sm-10 offset-sm-2"
  {
    assert [control, offset][1..] == [offset];
    assert ClassTokens.Join([control, offset]) == control + " " + offset;
  }

  /** `text_field :email, bootstrap: { layout: "vertical" }`, and a field rendered afterwards is horizontal again. */
  lemma TestFormFieldsGlobalOptionsOverride()
    ensures TextFieldPlan(FormOptions(SetupBuilderOptions()), map["bootstrap" := Hash(map["layout" := Str("vertical")])])
      == Some(ControlPlan("form-group", "sr-only", None))
    ensures Horizontal(FieldOptions(FormOptions(SetupBuilderOptions()), map[]))
  {
    ScopedEmpty(FormOptions(SetupBuilderOptions()));
  }
}
