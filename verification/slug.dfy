/** `safeSlug` of src/services/events.js: lower-case the name (or "event"
    when it is empty), turn every run of characters outside a-z and 0-9 into
    one '-', drop a leading and a trailing '-', and keep the first 40
    characters. */
module Slug {
  import opened Common

  const MaxSlug := 40

  predicate IsSlugChar(c: char) {
    IsLower(c) || IsDigit(c)
  }

  /** Only a-z, 0-9 and '-'. */
  predicate SlugText(s: string) {
    forall i :: 0 <= i < |s| ==> IsSlugChar(s[i]) || s[i] == '-'
  }

  predicate NoDoubleDash(s: string) {
    forall i :: 0 <= i < |s| - 1 ==> !(s[i] == '-' && s[i + 1] == '-')
  }

  /** The rest of the text after a run of characters outside a-z and 0-9. */
  function SkipRun(s: string): (r: string)
    ensures |r| <= |s| && (r == [] || IsSlugChar(r[0]))
    decreases |s|
  {
    if s != [] && !IsSlugChar(s[0]) then SkipRun(s[1..]) else s
  }

  /** `replace(/[^a-z0-9]+/g, '-')` */
  function Collapse(s: string): string
    decreases |s|
  {
    if s == [] then []
    else if IsSlugChar(s[0]) then [s[0]] + Collapse(s[1..])
    else "-" + Collapse(SkipRun(s[1..]))
  }

  /** `replace(/(^-|-$)/g, '')` */
  function TrimDashes(t: string): string {
    var u := if |t| > 0 && t[0] == '-' then t[1..] else t;
    if |u| > 0 && u[|u| - 1] == '-' then u[..|u| - 1] else u
  }

  /** The lower-cased name with runs collapsed and ends trimmed, before truncation. */
  function Untruncated(name: string): string {
    TrimDashes(Collapse(Lower(if name == "" then "event" else name)))
  }

  /** `safeSlug(name)`; `toLowerCase` is taken on ASCII letters. */
  function SafeSlug(name: string): string {
    var t := Untruncated(name);
    t[..Min(MaxSlug, |t|)]
  }

  lemma {:induction false} CollapseShape(s: string)
    ensures var c := Collapse(s);
      SlugText(c) && NoDoubleDash(c) && (c == [] <==> s == []) &&
      (c != [] ==> (c[0] == '-' <==> !IsSlugChar(s[0])))
    decreases |s|
  {
    if s != [] {
      if IsSlugChar(s[0]) {
        CollapseShape(s[1..]);
      } else {
        CollapseShape(SkipRun(s[1..]));
        var rest := Collapse(SkipRun(s[1..]));
        assert rest != [] ==> rest[0] != '-';
      }
    }
  }

  lemma TrimShape(t: string)
    requires SlugText(t) && NoDoubleDash(t)
    ensures var r := TrimDashes(t);
      SlugText(r) && NoDoubleDash(r) && (r != [] ==> r[0] != '-' && r[|r| - 1] != '-')
  {
    var u := if |t| > 0 && t[0] == '-' then t[1..] else t;
    if |t| > 1 && t[0] == '-' {
      assert u[0] == t[1];
    }
  }

  /** The slug has at most 40 characters, all from a-z, 0-9 and '-', never
      two '-' in a row and never a leading '-'; when no truncation happens it
      has no trailing '-' either. */
  lemma SlugShape(name: string)
    ensures var s := SafeSlug(name);
      |s| <= MaxSlug && SlugText(s) && NoDoubleDash(s) && (s != [] ==> s[0] != '-') &&
      (|Untruncated(name)| <= MaxSlug ==> s == Untruncated(name) && (s != [] ==> s[|s| - 1] != '-'))
  {
    CollapseShape(Lower(if name == "" then "event" else name));
    TrimShape(Collapse(Lower(if name == "" then "event" else name)));
  }

  lemma {:induction false} CollapseSlugPrefix(p: string, rest: string)
    requires forall i :: 0 <= i < |p| ==> IsSlugChar(p[i])
    ensures Collapse(p + rest) == p + Collapse(rest)
    decreases |p|
  {
    if p != [] {
      var s := p + rest;
      assert s[0] == p[0] && s[1..] == p[1..] + rest;
      CollapseSlugPrefix(p[1..], rest);
      calc {
        Collapse(s);
        [p[0]] + Collapse(p[1..] + rest);
        [p[0]] + (p[1..] + Collapse(rest));
        { assert [p[0]] + p[1..] == p; }
        p + Collapse(rest);
      }
    } else {
      assert p + rest == rest && p + Collapse(rest) == Collapse(rest);
    }
  }

  lemma {:induction false} SkipRunAll(s: string)
    requires forall i :: 0 <= i < |s| ==> !IsSlugChar(s[i])
    ensures SkipRun(s) == []
    decreases |s|
  {
    if s != [] {
      SkipRunAll(s[1..]);
    }
  }

  /** An empty name gives "event". */
  lemma EmptyNameSlug()
    ensures SafeSlug("") == "event"
  {
    var e := "event";
    forall i | 0 <= i < |e|
      ensures IsSlugChar(e[i]) && !IsUpper(e[i])
    {
    }
    assert Lower(e) == e;
    CollapseSlugPrefix(e, "");
    assert e + "" == e;
  }

  /** A non-empty name without ASCII letters or digits gives "". */
  lemma NoAlphanumericSlug(name: string)
    requires name != ""
    requires forall i :: 0 <= i < |name| ==> !IsSlugChar(LowerChar(name[i]))
    ensures SafeSlug(name) == ""
  {
    var l := Lower(name);
    SkipRunAll(l[1..]);
    assert Collapse(l) == "-";
  }

  lemma LowerKeeps(s: string)
    requires forall i :: 0 <= i < |s| ==> !IsUpper(s[i])
    ensures Lower(s) == s
  {
  }

  /** A separator before a final letter or digit becomes one '-'. */
  lemma CollapseTail(sep: char, last: char)
    requires !IsSlugChar(sep) && IsSlugChar(last)
    ensures Collapse([sep, last]) == ['-', last]
  {
    var s := [sep, last];
    var t := [last];
    assert s[1..] == t && SkipRun(t) == t;
    assert Collapse(s) == "-" + Collapse(t);
    CollapseSlugPrefix(t, []);
    assert t + [] == t;
  }

  /** Truncation happens after trimming, so a slug can end in '-': 39
      lower-case letters or digits, then a character such as a space, then
      one more letter or digit give those 39 characters and a '-'. */
  lemma TruncationKeepsTrailingDash(a: string, sep: char, last: char)
    requires |a| == 39 && forall i :: 0 <= i < |a| ==> IsSlugChar(a[i])
    requires !IsSlugChar(sep) && !IsUpper(sep) && IsSlugChar(last)
    ensures SafeSlug(a + [sep, last]) == a + "-"
  {
    var name := a + [sep, last];
    LowerKeeps(name);
    CollapseSlugPrefix(a, [sep, last]);
    CollapseTail(sep, last);
    var c := a + ['-', last];
    assert Collapse(name) == c;
    assert c[0] == a[0] && c[|c| - 1] == last;
    assert TrimDashes(c) == c;
    assert Untruncated(name) == c;
    assert c[..40] == a + "-";
  }
}
