/**
 * Space-separated CSS class lists and the grid-class rewrite behind
 * `offset_col_class`: every `col-<breakpoint>-<width>` token becomes
 * `offset-<breakpoint>-<width>`, every other token is kept, and the
 * tokens stay in their order.
 */
module ClassTokens {
  import opened RubyValues

  /** Splits a class list at every single space. Empty tokens are kept, so nothing of the input is lost. */
  function Split(s: string): (r: seq<string>)
    ensures |r| >= 1
  {
    if |s| == 0 then [""] else Prepend(s[0], Split(s[1..]))
  }

  /** The tokens of `[c] + s` from the tokens of `s`: a space opens an empty token, any other character joins the first one. */
  function Prepend(c: char, tokens: seq<string>): (r: seq<string>)
    requires |tokens| >= 1
    ensures |r| >= 1
  {
    if c == ' ' then [""] + tokens else [[c] + tokens[0]] + tokens[1..]
  }

  /** No token of a split class list holds a space. */
  lemma {:induction false} SplitWords(s: string)
    ensures forall i :: 0 <= i < |Split(s)| ==> ' ' !in Split(s)[i]
  {
    if |s| > 0 {
      SplitWords(s[1..]);
      var rest := Split(s[1..]);
      if s[0] != ' ' {
        assert ' ' !in [s[0]] + rest[0];
      }
    }
  }

  /** Joins class names with a single space between neighbours. */
  function Join(ts: seq<string>): string {
    if |ts| == 0 then ""
    else if |ts| == 1 then ts[0]
    else ts[0] + " " + Join(ts[1..])
  }

  /** Splitting loses nothing: joining the tokens again gives back the class list. */
  lemma {:induction false} JoinSplit(s: string)
    ensures Join(Split(s)) == s
  {
    if |s| > 0 {
      var rest := Split(s[1..]);
      JoinSplit(s[1..]);
      if s[0] == ' ' {
        assert ([""] + rest)[1..] == rest;
        assert Join(Split(s)) == "" + " " + Join(rest);
      } else if |rest| == 1 {
        assert Split(s) == [[s[0]] + rest[0]];
      } else {
        var first := [s[0]] + rest[0];
        assert ([first] + rest[1..])[1..] == rest[1..];
        assert Join(Split(s)) == first + " " + Join(rest[1..]);
        assert Join(rest) == rest[0] + " " + Join(rest[1..]);
        assert [s[0]] + s[1..] == s;
      }
    }
  }

  /** How Split treats the first character of a class list. */
  lemma SplitCons(c: char, s: string)
    ensures Split([c] + s) == Prepend(c, Split(s))
  {
    assert ([c] + s)[1..] == s;
  }

  /** Prepending a character to the tokens of two lists only touches the first list. */
  lemma PrependAppend(c: char, xs: seq<string>, ys: seq<string>)
    requires |xs| >= 1
    ensures Prepend(c, xs + ys) == Prepend(c, xs) + ys
  {
    if c != ' ' {
      assert (xs + ys)[0] == xs[0];
      assert (xs + ys)[1..] == xs[1..] + ys;
    }
  }

  /** A space between two class lists splits into the tokens of the first followed by those of the second. */
  lemma {:induction false} SplitAround(a: string, b: string)
    ensures Split(a + " " + b) == Split(a) + Split(b)
  {
    if |a| == 0 {
      assert a + " " + b == [' '] + b;
      SplitCons(' ', b);
    } else {
      var tail := a[1..] + " " + b;
      assert a + " " + b == [a[0]] + tail;
      assert a == [a[0]] + a[1..];
      SplitAround(a[1..], b);
      SplitCons(a[0], tail);
      SplitCons(a[0], a[1..]);
      PrependAppend(a[0], Split(a[1..]), Split(b));
    }
  }

  /** Putting a class list in front of a non-empty list of class lists puts its tokens in front. */
  lemma SplitJoinCons(t: string, ts: seq<string>)
    requires |ts| >= 1
    ensures Split(Join([t] + ts)) == Split(t) + Split(Join(ts))
  {
    assert ([t] + ts)[1..] == ts;
    SplitAround(t, Join(ts));
  }

  /** A word without spaces is a single token. */
  lemma {:induction false} SplitWord(w: string)
    requires ' ' !in w
    ensures Split(w) == [w]
  {
    if |w| > 0 {
      assert ' ' !in w[1..];
      SplitWord(w[1..]);
      assert [w[0]] + w[1..] == w;
    }
  }

  /** A word without spaces in front of a non-empty list of class lists is one token in front. */
  lemma SplitJoinWord(w: string, ts: seq<string>)
    requires ' ' !in w
    requires |ts| >= 1
    ensures Split(Join([w] + ts)) == [w] + Split(Join(ts))
  {
    SplitJoinCons(w, ts);
    SplitWord(w);
  }

  /** Joining tokens that hold no space and splitting again gives back the same tokens. */
  lemma {:induction false} SplitJoin(ts: seq<string>)
    requires |ts| >= 1
    requires forall i :: 0 <= i < |ts| ==> ' ' !in ts[i]
    ensures Split(Join(ts)) == ts
  {
    SplitWord(ts[0]);
    if |ts| > 1 {
      SplitJoin(ts[1..]);
      SplitAround(ts[0], Join(ts[1..]));
      assert [ts[0]] + ts[1..] == ts;
    }
  }

  /** First position of `c` in `s`. */
  function IndexOf(s: string, c: char): (r: nat)
    requires c in s
    ensures r < |s| && s[r] == c
    ensures forall j :: 0 <= j < r ==> s[j] != c
  {
    if s[0] == c then 0 else 1 + IndexOf(s[1..], c)
  }

  /** The grid class `col-<breakpoint>-<width>`. */
  function ColClass(breakpoint: string, width: string): string {
    "col-" + breakpoint + "-" + width
  }

  /** The offset class `offset-<breakpoint>-<width>`. */
  function OffsetClass(breakpoint: string, width: string): string {
    "offset-" + breakpoint + "-" + width
  }

  /** A breakpoint is a non-empty name without a dash; a width is any non-empty text. */
  predicate GridParts(breakpoint: string, width: string) {
    breakpoint != "" && '-' !in breakpoint && width != ""
  }

  /** Recognises a grid token and returns its breakpoint and width. */
  function ParseColClass(t: string): (r: Option<(string, string)>)
    ensures r.Some? ==> GridParts(r.value.0, r.value.1) && t == ColClass(r.value.0, r.value.1)
  {
    if |t| >= 4 && t[..4] == "col-" && '-' in t[4..] then
      var rest := t[4..];
      var i := IndexOf(rest, '-');
      if 0 < i < |rest| - 1 then
        var breakpoint, width := rest[..i], rest[i + 1..];
        assert '-' !in breakpoint by {
          forall j | 0 <= j < i ensures breakpoint[j] != '-' {
            assert breakpoint[j] == rest[j];
          }
        }
        assert rest == breakpoint + "-" + width by {
          assert rest == rest[..i] + [rest[i]] + rest[i + 1..];
        }
        assert t == t[..4] + rest;
        Some((breakpoint, width))
      else None
    else None
  }

  /** Every grid token is recognised, with the breakpoint and width it was built from. */
  lemma ParseColClassComplete(breakpoint: string, width: string)
    requires GridParts(breakpoint, width)
    ensures ParseColClass(ColClass(breakpoint, width)) == Some((breakpoint, width))
  {
    var t := ColClass(breakpoint, width);
    var rest := t[4..];
    assert rest == breakpoint + "-" + width;
    assert rest[|breakpoint|] == '-';
    assert forall j :: 0 <= j < |breakpoint| ==> rest[j] == breakpoint[j];
    assert IndexOf(rest, '-') == |breakpoint|;
    assert rest[..|breakpoint|] == breakpoint;
    assert rest[|breakpoint| + 1..] == width;
  }

  /** A token that starts with `offset-` is not a grid token. */
  lemma OffsetIsNoColClass(breakpoint: string, width: string)
    ensures ParseColClass(OffsetClass(breakpoint, width)) == None
  {
    var t := OffsetClass(breakpoint, width);
    assert t[..4] == "offs";
  }

  /** Rewrites one token: a grid token becomes its offset class, anything else is kept. */
  function RewriteToken(t: string): (r: string)
    ensures ' ' !in t ==> ' ' !in r
  {
    match ParseColClass(t)
    case Some((breakpoint, width)) => OffsetClass(breakpoint, width)
    case None => t
  }

  /** Applies a token rewrite to each token in turn. */
  function MapTokens(f: string -> string, ts: seq<string>): (r: seq<string>)
    ensures |r| == |ts|
    ensures forall i :: 0 <= i < |ts| ==> r[i] == f(ts[i])
  {
    if |ts| == 0 then [] else [f(ts[0])] + MapTokens(f, ts[1..])
  }

  /** Mapping over two token lists one after the other is mapping over their concatenation. */
  lemma {:induction false} MapTokensAppend(f: string -> string, xs: seq<string>, ys: seq<string>)
    ensures MapTokens(f, xs + ys) == MapTokens(f, xs) + MapTokens(f, ys)
  {
    if |xs| > 0 {
      assert (xs + ys)[1..] == xs[1..] + ys;
      MapTokensAppend(f, xs[1..], ys);
      assert MapTokens(f, xs + ys) == [f(xs[0])] + MapTokens(f, xs[1..] + ys);
    } else {
      assert xs + ys == ys;
    }
  }

  /** Rewrites each token in turn. */
  function RewriteAll(ts: seq<string>): (r: seq<string>)
    ensures |r| == |ts|
    ensures forall i :: 0 <= i < |ts| ==> r[i] == RewriteToken(ts[i])
  {
    MapTokens(RewriteToken, ts)
  }

  /** The `offset_col_class` rewrite of a whole class list. */
  function OffsetClasses(s: string): string {
    Join(RewriteAll(Split(s)))
  }

  /** The rewrite keeps the number of tokens and their order, and rewrites each token on its own. */
  lemma OffsetClassesTokens(s: string)
    ensures Split(OffsetClasses(s)) == RewriteAll(Split(s))
    ensures |Split(OffsetClasses(s))| == |Split(s)|
    ensures forall i :: 0 <= i < |Split(s)| ==> Split(OffsetClasses(s))[i] == RewriteToken(Split(s)[i])
  {
    SplitWords(s);
    SplitJoin(RewriteAll(Split(s)));
  }

  /** Rewriting two token lists one after the other is rewriting their concatenation. */
  lemma RewriteAllAppend(xs: seq<string>, ys: seq<string>)
    ensures RewriteAll(xs + ys) == RewriteAll(xs) + RewriteAll(ys)
  {
    MapTokensAppend(RewriteToken, xs, ys);
  }

  lemma {:induction false} JoinAppend(xs: seq<string>, ys: seq<string>)
    requires |xs| >= 1 && |ys| >= 1
    ensures Join(xs + ys) == Join(xs) + " " + Join(ys)
  {
    if |xs| == 1 {
      assert (xs + ys)[1..] == ys;
    } else {
      assert (xs + ys)[1..] == xs[1..] + ys;
      JoinAppend(xs[1..], ys);
    }
  }

  /** The rewrite works on each side of a space separately. */
  lemma OffsetClassesAround(a: string, b: string)
    ensures OffsetClasses(a + " " + b) == OffsetClasses(a) + " " + OffsetClasses(b)
  {
    SplitAround(a, b);
    RewriteAllAppend(Split(a), Split(b));
    JoinAppend(RewriteAll(Split(a)), RewriteAll(Split(b)));
  }

  /** A grid token is rewritten to the offset class with the same breakpoint and width. */
  lemma RewriteColClass(breakpoint: string, width: string)
    requires GridParts(breakpoint, width)
    ensures RewriteToken(ColClass(breakpoint, width)) == OffsetClass(breakpoint, width)
  {
    ParseColClassComplete(breakpoint, width);
  }

  /** A class list without grid tokens comes back unchanged. */
  lemma OffsetClassesKeepsOthers(s: string)
    requires forall i :: 0 <= i < |Split(s)| ==> ParseColClass(Split(s)[i]) == None
    ensures OffsetClasses(s) == s
  {
    assert RewriteAll(Split(s)) == Split(s);
    JoinSplit(s);
  }

  /** Rewriting twice is rewriting once: offset classes are no grid tokens. */
  lemma OffsetClassesIdempotent(s: string)
    ensures OffsetClasses(OffsetClasses(s)) == OffsetClasses(s)
  {
    var o := OffsetClasses(s);
    OffsetClassesTokens(s);
    forall i | 0 <= i < |Split(o)| ensures ParseColClass(Split(o)[i]) == None {
      var t := Split(s)[i];
      match ParseColClass(t)
      case Some((breakpoint, width)) => OffsetIsNoColClass(breakpoint, width);
      case None =>
    }
    OffsetClassesKeepsOthers(o);
  }
}
