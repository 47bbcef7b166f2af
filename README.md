# ComfyBootstrapForm::BootstrapOptions in Dafny

A model of the Bootstrap options object of the `comfy_bootstrap_form` Rails
form builder, as its test file `test/comfy_bootstrap_form/bootstrap_options_test.rb`
pins it down, and of the class strings that `text_field` derives from it.

- `RubyValues` (`ruby_values.dfy`): the values an options hash carries (`nil`,
  `true`/`false`, strings, nested hashes) and Ruby truthiness. Symbol keys are
  written as their names.
- `ClassTokens` (`class_tokens.dfy`): space-separated class lists. `Join` undoes
  `Split` for every class list (`JoinSplit`); `Split` undoes `Join` only for a
  non-empty list of tokens without spaces (`SplitJoin`; `Join([])` splits into
  `[""]`, and `Join(["a b"])` into `["a", "b"]`). `OffsetClasses` rewrites every grid token
  `col-<breakpoint>-<width>` into `offset-<breakpoint>-<width>`, keeping all other
  tokens and the token order.
- `Options` (`bootstrap_options.dfy`): the `BootstrapOptions` value with one
  field per recognised key; `New` (`BootstrapOptions.new`) with its defaults;
  `Scoped` (`#scoped`), which returns a new value and leaves the receiver as it
  was; `Horizontal` (`horizontal?`), `Inline` (`inline?`) and `OffsetColClass`
  (`offset_col_class`). `Get` is the accessor `options.<key>`; it is `None` for a
  key the object has no accessor for.
- `FormControl` (`form_control.dfy`): the form builder's options (the
  `bootstrap:` hash it is created with), the per-field options (those scoped
  with the field call's own `bootstrap:` hash), and the wrapper, label and
  control-wrapper classes of `text_field` in the horizontal and vertical layouts.
- `BootstrapOptionsTests` (`bootstrap_options_tests.dfy`): every case of the test
  file, stated as a lemma about the model.

How a hash is read. `disabled` and `check_inline` take any value and store its
truthiness, so `check_inline: "true"` is true. `layout` and the four `*_class`
keys take a string. `append`, `prepend` and `help` take a string, or `nil`, which
clears them. `label` takes a hash, or `nil`, which stands for `{}`. Any other key
is ignored, and so is a value of a type the key cannot hold. `Accepted(f)` is the
part of a hash `f` that is taken. Scoping with `f` and then with `g` is scoping
once with the merge of the entries each hash takes, `Accepted(f) + Accepted(g)`
(`ScopedTwice`). It is not scoping with the plain merge `f + g`: with
`f = {layout: "horizontal"}` and `g = {layout: true}`, scoping twice keeps
`"horizontal"`, while `f + g` holds only the ignored `layout: true`.

Unknown keys are ignored; no `UnknownOptionError` is raised. The test
(`bootstrap_options_test.rb:57-60`) builds `BootstrapOptions.new(invalid: "invalid")`
and checks only that there is no `invalid` accessor (`UnknownKeyIgnored`,
`ScopedIgnoresRest`).

## Model

| member | source | states |
|---|---|---|
| Options.New | test/comfy_bootstrap_form/bootstrap_options_test.rb:15-60 | every recognised accessor reads the coerced value given in the hash, or its default when the key is absent or its value does not fit; an unknown key has no accessor |
| Options.Get | test/comfy_bootstrap_form/bootstrap_options_test.rb:57-60 | an accessor exists exactly for the eleven recognised keys |
| Options.GetDeterminesOptions | test/comfy_bootstrap_form/bootstrap_options_test.rb:15-55 | two options values whose recognised accessors all agree are equal, so the accessors describe the whole object |
| Options.Scoped | test/comfy_bootstrap_form/bootstrap_options_test.rb:89-97 | each taken key of the override hash sets its accessor; every other accessor reads as on the receiver |
| Options.ScopedEmpty | test/comfy_bootstrap_form/bootstrap_options_test.rb:99-110 | scoping with no override gives back the receiver |
| Options.ScopedIgnoresRest | test/comfy_bootstrap_form/bootstrap_options_test.rb:57-60 | only the entries that are taken affect the result; unknown keys and ill-typed values do not |
| Options.UnknownKeyIgnored | test/comfy_bootstrap_form/bootstrap_options_test.rb:57-60 | adding an unknown key to any hash changes nothing and creates no accessor |
| Options.ScopedTwice | test/comfy_bootstrap_form/bootstrap_options_test.rb:89-97 | scoping with one hash and then another is scoping once with the merge of the entries each hash takes, the second hash's entries winning |
| Options.CascadeIsOneHash | test/comfy_bootstrap_form/bootstrap_options_test.rb:112-121 | form-level options scoped with a field-level hash equal new options built from the merge of the entries each hash takes, the field's entries winning |
| Options.ScopedIdempotent | test/comfy_bootstrap_form/bootstrap_options_test.rb:89-97 | scoping twice with the same hash is scoping once |
| Options.ScopedHorizontal | test/comfy_bootstrap_form/bootstrap_options_test.rb:89-97 | after scoping, `horizontal?` follows a string `layout` in the hash and otherwise the receiver |
| Options.ScopedInline | test/comfy_bootstrap_form/bootstrap_options_test.rb:70-76 | after scoping, `inline?` follows a string `layout` in the hash and otherwise the receiver |
| Options.NewLayoutPredicates | test/comfy_bootstrap_form/bootstrap_options_test.rb:62-76 | `horizontal?` holds iff the hash gives `layout: "horizontal"`, `inline?` iff it gives `layout: "inline"`, and never both |
| Options.Horizontal | test/comfy_bootstrap_form/bootstrap_options_test.rb:62-68 | `horizontal?`: a horizontal options object is never inline |
| Options.Inline | test/comfy_bootstrap_form/bootstrap_options_test.rb:70-76 | `inline?`: an inline options object does not have the default layout `"vertical"`; `NewLayoutPredicates` and `ScopedInline` tie it to the hash's `layout` |
| Options.OffsetColClass | test/comfy_bootstrap_form/bootstrap_options_test.rb:78-87 | the tokens of the result are the label column tokens, each rewritten on its own, in the same order |
| ClassTokens.Split | test/comfy_bootstrap_form/bootstrap_options_test.rb:85-86 | a class list splits into at least one token; `JoinSplit` (joining gives back the list) and `SplitWords` (no token holds a space) together fix the result as the split at every single space, where extra, leading and trailing spaces give empty tokens |
| ClassTokens.SplitWords | test/comfy_bootstrap_form/bootstrap_options_test.rb:85-86 | no token of a split class list holds a space |
| ClassTokens.JoinSplit | test/comfy_bootstrap_form/bootstrap_options_test.rb:85-86 | joining the tokens of a class list gives back the class list |
| ClassTokens.SplitJoin | test/comfy_bootstrap_form/bootstrap_options_test.rb:85-86 | splitting joined space-free tokens gives back the tokens |
| ClassTokens.SplitAround | test/comfy_bootstrap_form/bootstrap_options_test.rb:85-86 | the tokens of `a + " " + b` are the tokens of `a` followed by those of `b` |
| ClassTokens.ParseColClass | test/comfy_bootstrap_form/bootstrap_options_test.rb:78-87 | a recognised token is exactly `col-<breakpoint>-<width>` with a non-empty dash-free breakpoint and a non-empty width |
| ClassTokens.ParseColClassComplete | test/comfy_bootstrap_form/bootstrap_options_test.rb:78-87 | every such grid token is recognised, with its own breakpoint and width |
| ClassTokens.RewriteColClass | test/comfy_bootstrap_form/bootstrap_options_test.rb:82-83 | a grid token becomes the offset class with the same breakpoint and width |
| ClassTokens.RewriteAll | test/comfy_bootstrap_form/bootstrap_options_test.rb:85-86 | the rewrite keeps the number of tokens and rewrites position by position |
| ClassTokens.OffsetClassesTokens | test/comfy_bootstrap_form/bootstrap_options_test.rb:78-87 | the offset rewrite keeps the token count and order and rewrites every token separately |
| ClassTokens.OffsetClassesAround | test/comfy_bootstrap_form/bootstrap_options_test.rb:85-86 | the rewrite of two space-separated class lists is the two rewrites joined by a space |
| ClassTokens.OffsetClassesKeepsOthers | test/comfy_bootstrap_form/bootstrap_options_test.rb:78-87 | a class list without grid tokens is left unchanged |
| ClassTokens.OffsetClassesIdempotent | test/comfy_bootstrap_form/bootstrap_options_test.rb:78-87 | rewriting an already rewritten list changes nothing |
| FormControl.FormOptions | test/comfy_bootstrap_form/bootstrap_options_test.rb:7-13 | a builder without a `bootstrap:` hash gets the defaults; with one, `New`'s ensures and `CascadeIsOneHash` give every accessor |
| FormControl.FieldOptions | test/comfy_bootstrap_form/bootstrap_options_test.rb:111-113 | a call without a `bootstrap:` hash uses the form's options unchanged; with one, `Scoped`'s ensures give every accessor |
| FormControl.LabelHidden | test/comfy_bootstrap_form/bootstrap_options_test.rb:10 | the default empty `label` hash shows the label; `NewLabelHidden` ties hiding to the hash's `label: { hide: ... }` |
| FormControl.NewLabelHidden | test/comfy_bootstrap_form/bootstrap_options_test.rb:8-11 | options built from a hash hide the label exactly when the hash's `label:` hash has a truthy `hide` |
| FormControl.TextFieldPlan | test/comfy_bootstrap_form/bootstrap_options_test.rb:99-121 | the wrapper is `form-group row` for a horizontal field and `form-group` otherwise; the input has its own div exactly in the horizontal layout; a horizontal field gets the horizontal plan of its field options; inline fields have no plan |
| FormControl.HorizontalPlanTokens | test/comfy_bootstrap_form/bootstrap_options_test.rb:99-110 | horizontal label classes are `sr-only` (if hidden), `col-form-label`, the label column and alignment tokens; the control div holds the control column tokens and, if the label is hidden, the offset of every label column token |
| FormControl.VerticalPlanClasses | test/comfy_bootstrap_form/bootstrap_options_test.rb:112-121 | a vertical field has wrapper `form-group`, label class `sr-only` only when hidden, and no control div |
| BootstrapOptionsTests.TestDefaults | test/comfy_bootstrap_form/bootstrap_options_test.rb:15-28 | new options with no hash have the eleven documented defaults |
| BootstrapOptionsTests.TestWithSetOptions | test/comfy_bootstrap_form/bootstrap_options_test.rb:30-55 | each given key reads back, `check_inline: "true"` as true |
| BootstrapOptionsTests.TestWithSetInvalidOptions | test/comfy_bootstrap_form/bootstrap_options_test.rb:57-60 | `invalid: "invalid"` gives the defaults and no `invalid` accessor |
| BootstrapOptionsTests.TestHorizontal | test/comfy_bootstrap_form/bootstrap_options_test.rb:62-68 | default options are not horizontal, `layout: "horizontal"` ones are |
| BootstrapOptionsTests.TestInline | test/comfy_bootstrap_form/bootstrap_options_test.rb:70-76 | default options are not inline, `layout: "inline"` ones are |
| BootstrapOptionsTests.TestOffsetColClassDefault | test/comfy_bootstrap_form/bootstrap_options_test.rb:79-80 | the default gives `offset-sm-2` |
| BootstrapOptionsTests.TestOffsetColClassMd4 | test/comfy_bootstrap_form/bootstrap_options_test.rb:82-83 | `col-md-4` gives `offset-md-4` |
| BootstrapOptionsTests.TestOffsetColClassResponsive | test/comfy_bootstrap_form/bootstrap_options_test.rb:85-86 | `col-sm-4 col-md-2` gives `offset-sm-4 offset-md-2` |
| BootstrapOptionsTests.TestScoped | test/comfy_bootstrap_form/bootstrap_options_test.rb:89-97 | the scoped value is horizontal while the receiver is not |
| BootstrapOptionsTests.TestFormFieldsGlobalOptions | test/comfy_bootstrap_form/bootstrap_options_test.rb:99-110 | with the global horizontal, label-hidden options the classes are `form-group row`, `sr-only col-form-label col-sm-2 text-sm-right` and `col-sm-10 offset-sm-2` |
| BootstrapOptionsTests.TestFormFieldsGlobalOptionsOverride | test/comfy_bootstrap_form/bootstrap_options_test.rb:112-121 | a field-level `layout: "vertical"` gives `form-group`, `sr-only` and no control div, and a field without override is still horizontal |

## Left out

- The implementation files (`lib/comfy_bootstrap_form/bootstrap_options.rb`, the form builder) are not part of this model; the model follows what the test asserts about them.
- HTML generation: tags, the `form-control` input class, `id`, `name` and the label text derived from the attribute name come from Rails and are not modelled.
- TextFieldPlan: the inline layout and the use of `inline_margin_class` have no plan (`None`), because no test asserts their classes.
- TextFieldPlan: the plan holds only the three class strings; help text, prepend/append add-ons and `disabled` are not carried into it.
- Unknown keys raise no error: the test at lines 57-60 builds options with one, so no `UnknownOptionError` is modelled.
- Options.New: a value of the wrong type for a string or hash key (for example `layout: true`) is ignored instead of being stored as given, because the typed fields cannot hold it.
- ClassTokens.Split: class lists are split at every single space and rejoined as they were, so runs of spaces and leading or trailing spaces are kept as empty tokens and the rewrite keeps the input's spacing (`"col-sm-4  col-md-2"` gives `"offset-sm-4  offset-md-2"`) instead of collapsing it to single spaces as a split on whitespace would; tabs and newlines are ordinary characters. The test uses only single spaces.
- Symbols and strings as hash keys are not told apart; keys are their names.
- Concurrency: options are values, so there is nothing shared to model.
