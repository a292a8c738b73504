/**
 * Handle normalisation (a missing handle as empty, trimmed, leading '@'
 * characters dropped, lower-cased),
 * and the handle sets that the routes fill from the users table and the
 * username mapping tables.
 */
module Handles {
  import opened Common

  /** The ASCII characters that trimming removes. */
  predicate IsSpace(c: char)
  {
    c == ' ' || c == '\t' || c == '\n' || c == '\r' || c == '\U{000B}' || c == '\U{000C}'
  }

  predicate IsUpper(c: char)
  {
    'A' <= c <= 'Z'
  }

  function TrimStart(s: string): (r: string)
    ensures |r| <= |s| && r == s[|s| - |r|..]
    ensures |r| > 0 ==> !IsSpace(r[0])
  {
    if |s| > 0 && IsSpace(s[0]) then TrimStart(s[1..]) else s
  }

  function TrimEnd(s: string): (r: string)
    ensures |r| <= |s| && r == s[..|r|]
    ensures |r| > 0 ==> !IsSpace(r[|r| - 1])
  {
    if |s| > 0 && IsSpace(s[|s| - 1]) then TrimEnd(s[..|s| - 1]) else s
  }

  function Trim(s: string): (r: string)
    ensures |r| <= |s|
    ensures |r| > 0 ==> !IsSpace(r[0]) && !IsSpace(r[|r| - 1])
  {
    var t := TrimStart(s);
    var r := TrimEnd(t);
    assert |r| > 0 ==> r[0] == t[0];
    r
  }

  /** Drops every leading '@'. */
  function StripAt(s: string): (r: string)
    ensures |r| <= |s| && r == s[|s| - |r|..]
    ensures |r| > 0 ==> r[0] != '@'
  {
    if |s| > 0 && s[0] == '@' then StripAt(s[1..]) else s
  }

  function LowerChar(c: char): (r: char)
    ensures !IsUpper(r)
    ensures IsSpace(r) == IsSpace(c) && (r == '@') == (c == '@')
  {
    if IsUpper(c) then (c as int - 'A' as int + 'a' as int) as char else c
  }

  /** `toLowerCase`, on ASCII letters. */
  function Lower(s: string): (r: string)
    ensures |r| == |s|
    ensures forall i :: 0 <= i < |s| ==> r[i] == LowerChar(s[i])
  {
    seq(|s|, i requires 0 <= i < |s| => LowerChar(s[i]))
  }

  function Normalize(h: string): string
  {
    Lower(StripAt(Trim(h)))
  }

  /** Stripping leading '@' keeps the last character. */
  lemma StripAtKeepsEnd(t: string)
    ensures var u := StripAt(t); |u| > 0 ==> u[|u| - 1] == t[|t| - 1]
  {
  }

  /** Lower-casing maps the first and the last character. */
  lemma LowerEnds(u: string)
    ensures var r := Lower(u); |r| > 0 ==> r[0] == LowerChar(u[0]) && r[|r| - 1] == LowerChar(u[|u| - 1])
  {
  }

  /**
   * A normalised handle has no capital letter, does not start with '@',
   * does not end with a space and is no longer than the raw handle.
   */
  lemma NormalForm(h: string)
    ensures var r := Normalize(h);
      && (forall i :: 0 <= i < |r| ==> !IsUpper(r[i]))
      && (|r| > 0 ==> r[0] != '@')
      && (|r| > 0 ==> !IsSpace(r[|r| - 1]))
      && |r| <= |h|
  {
    var t := Trim(h);
    var u := StripAt(t);
    StripAtKeepsEnd(t);
    LowerEnds(u);
  }

  /** A handle that is already trimmed, has no leading '@' and no capital is its own normal form. */
  lemma {:induction false} NormalizeKeepsNormal(h: string)
    requires |h| > 0 ==> !IsSpace(h[0]) && !IsSpace(h[|h| - 1]) && h[0] != '@'
    requires forall i :: 0 <= i < |h| ==> !IsUpper(h[i])
    ensures Normalize(h) == h
  {
    assert TrimStart(h) == h;
    assert TrimEnd(h) == h;
    assert StripAt(h) == h;
  }

  lemma TrimAtSpace()
    ensures Trim("@ x") == "@ x"
  {
    var a := "@ x";
    assert !IsSpace(a[0]) && !IsSpace(a[|a| - 1]);
  }

  lemma LowerSpaceX()
    ensures Lower(" x") == " x"
  {
    var r := Lower(" x");
    assert |r| == 2 && r[0] == LowerChar(' ') == ' ' && r[1] == LowerChar('x') == 'x';
  }

  lemma NormalizeAtSpace()
    ensures Normalize("@ x") == " x"
  {
    TrimAtSpace();
    var a := "@ x";
    assert a[0] == '@' && a[1..] == " x";
    assert StripAt(" x") == " x";
    LowerSpaceX();
  }

  lemma TrimSpaceX()
    ensures Trim(" x") == "x"
  {
    var b := " x";
    assert IsSpace(b[0]) && b[1..] == "x";
    assert TrimStart("x") == "x";
  }

  lemma LowerX()
    ensures Lower("x") == "x"
  {
    assert |Lower("x")| == 1 && Lower("x")[0] == LowerChar('x') == 'x';
  }

  lemma NormalizeSpaceX()
    ensures Normalize(" x") == "x"
  {
    TrimSpaceX();
    assert StripAt("x") == "x";
    LowerX();
  }

  /** Normalisation is not idempotent: stripping the '@' of "@ x" exposes a space. */
  lemma NormalizeNotIdempotent()
    ensures Normalize(Normalize("@ x")) != Normalize("@ x")
  {
    NormalizeAtSpace();
    NormalizeSpaceX();
  }

  /** The non-empty images under `f` of a list of raw handles. */
  function NonEmptyImage(raw: seq<string>, f: string -> string): set<string>
  {
    if raw == [] then {}
    else
      var h := f(raw[|raw| - 1]);
      NonEmptyImage(raw[..|raw| - 1], f) + (if h != "" then {h} else {})
  }

  lemma {:induction false} NonEmptyImageMembers(raw: seq<string>, f: string -> string, h: string)
    ensures h in NonEmptyImage(raw, f) ==> h != "" && exists i :: 0 <= i < |raw| && f(raw[i]) == h
    ensures forall i :: 0 <= i < |raw| && f(raw[i]) == h && h != "" ==> h in NonEmptyImage(raw, f)
  {
    if raw != [] {
      var init := raw[..|raw| - 1];
      NonEmptyImageMembers(init, f, h);
      if h in NonEmptyImage(init, f) {
        var i :| 0 <= i < |init| && f(init[i]) == h;
        assert raw[i] == init[i];
      }
      forall i | 0 <= i < |raw| && f(raw[i]) == h && h != "" ensures h in NonEmptyImage(raw, f) {
        if i < |init| { assert init[i] == raw[i]; }
      }
    }
  }

  /** The non-empty normal forms of a list of raw handles. */
  function NormSet(raw: seq<string>): set<string>
  {
    NonEmptyImage(raw, Normalize)
  }

  /** A handle is in the set exactly when it is the non-empty normal form of some raw handle. */
  lemma NormSetMembers(raw: seq<string>, h: string)
    ensures h in NormSet(raw) <==> h != "" && exists i :: 0 <= i < |raw| && Normalize(raw[i]) == h
  {
    NonEmptyImageMembers(raw, Normalize, h);
  }

  /** The state of a handle set after the raw handles `raw`, started from `order`. */
  ghost predicate Added(out: seq<string>, order: seq<string>, raw: seq<string>, f: string -> string)
  {
    && Distinct(out)
    && |order| <= |out| && out[..|order|] == order
    && forall h :: h in out <==> h in order || h in NonEmptyImage(raw, f)
  }

  /** The image of one more raw handle. */
  lemma NonEmptyImageStep(raw: seq<string>, j: nat, f: string -> string)
    requires j < |raw|
    ensures NonEmptyImage(raw[..j + 1], f) == NonEmptyImage(raw[..j], f) + (if f(raw[j]) != "" then {f(raw[j])} else {})
  {
    assert raw[..j + 1][..j] == raw[..j];
  }

  /** One raw handle added: its normal form joins the set when it is non-empty and new. */
  lemma AddedStep(out: seq<string>, order: seq<string>, raw: seq<string>, j: nat, f: string -> string)
    requires j < |raw| && Added(out, order, raw[..j], f)
    ensures var h := f(raw[j]); Added(if h != "" && h !in out then out + [h] else out, order, raw[..j + 1], f)
  {
    NonEmptyImageStep(raw, j, f);
    var h := f(raw[j]);
    if h != "" && h !in out {
      var out' := out + [h];
      assert out'[..|order|] == order by {
        assert out'[..|out|] == out;
        assert out'[..|order|] == out'[..|out|][..|order|];
      }
      forall a, b | 0 <= a < b < |out'| ensures out'[a] != out'[b] {
        if b == |out| { assert out'[a] == out[a] && out[a] in out; }
      }
    }
  }

  /** The non-empty images under `f` of the raw handles, in order, repeats kept. */
  function NonEmptyList(raw: seq<string>, f: string -> string): seq<string>
  {
    if raw == [] then []
    else
      var h := f(raw[|raw| - 1]);
      NonEmptyList(raw[..|raw| - 1], f) + (if h != "" then [h] else [])
  }

  /** The non-empty normal forms of the raw handles, in order, repeats kept. */
  function Norms(raw: seq<string>): seq<string>
  {
    NonEmptyList(raw, Normalize)
  }

  /** A set that lists `order` and then has each of `raw`'s non-empty normal forms added. */
  function SetOrder(order: seq<string>, raw: seq<string>): seq<string>
  {
    Dedup(order + Norms(raw))
  }

  /** One raw handle added: a new non-empty image is appended at the end, and nothing else changes. */
  lemma AddOneStep(out: seq<string>, order: seq<string>, raw: seq<string>, j: nat, f: string -> string)
    requires j < |raw| && out == Dedup(order + NonEmptyList(raw[..j], f))
    ensures var h := f(raw[j]);
      (if h != "" && h !in out then out + [h] else out) == Dedup(order + NonEmptyList(raw[..j + 1], f))
  {
    var h := f(raw[j]);
    var ks := order + NonEmptyList(raw[..j], f);
    assert raw[..j + 1][..j] == raw[..j];
    if h != "" {
      assert order + NonEmptyList(raw[..j + 1], f) == ks + [h];
      DedupPush(ks, h);
    } else {
      assert order + NonEmptyList(raw[..j + 1], f) == ks;
    }
  }

  /**
   * Every raw handle normalised and added to the set when non-empty, on a
   * handle set kept in insertion order (the order a JavaScript set lists):
   * the handles already there keep their places, and each new non-empty
   * normal form is appended when it first occurs.
   */
  method AddHandles(order: seq<string>, raw: seq<string>) returns (out: seq<string>)
    requires Distinct(order)
    ensures out == SetOrder(order, raw)
    ensures Distinct(out)
    ensures |order| <= |out| && out[..|order|] == order
    ensures forall h :: h in out <==> h in order || h in NormSet(raw)
  {
    out := order;
    assert raw[..0] == [];
    DedupDistinct(order);
    assert order + Norms(raw[..0]) == order;
    for j := 0 to |raw|
      invariant Added(out, order, raw[..j], Normalize)
      invariant out == SetOrder(order, raw[..j])
    {
      var h := Normalize(raw[j]);
      AddedStep(out, order, raw, j, Normalize);
      AddOneStep(out, order, raw, j, Normalize);
      if h != "" && h !in out {
        out := out + [h];
      }
    }
    assert raw[..|raw|] == raw;
  }

  /** An employee row of `users`: its raw TikTok and Instagram handles ("" when null). */
  datatype Employee = Employee(tiktok: string, instagram: string)

  function TikTokHandles(emps: seq<Employee>): (hs: seq<string>)
    ensures |hs| == |emps| && forall i :: 0 <= i < |emps| ==> hs[i] == emps[i].tiktok
  {
    seq(|emps|, i requires 0 <= i < |emps| => emps[i].tiktok)
  }

  function InstagramHandles(emps: seq<Employee>): (hs: seq<string>)
    ensures |hs| == |emps| && forall i :: 0 <= i < |emps| ==> hs[i] == emps[i].instagram
  {
    seq(|emps|, i requires 0 <= i < |emps| => emps[i].instagram)
  }

  /**
   * The employee handles: the normal forms of the employees' own handles
   * and, when there is at least one employee, of the mapping table's.
   */
  function KnownSet(own: seq<string>, mapped: seq<string>): set<string>
  {
    NormSet(own) + (if |own| > 0 then NormSet(mapped) else {})
  }

  /**
   * The employee handle set of the debug routes: `own` holds one raw handle
   * per employee row of `users` (empty when null), `mapped` the raw handles
   * of the mapping table, which is read only when there is an employee.
   */
  method EmployeeHandles(own: seq<string>, mapped: seq<string>) returns (hs: seq<string>)
    ensures hs == KnownOrder(own, mapped)
    ensures Distinct(hs)
    ensures forall h :: h in hs <==> h in KnownSet(own, mapped)
    ensures Elems(hs) == KnownSet(own, mapped)
  {
    hs := AddHandles([], own);
    assert [] + Norms(own) == Norms(own);
    if |own| > 0 {
      hs := AddHandles(hs, mapped);
      DedupAppend(Norms(own), Norms(mapped));
    } else {
      assert Norms(own) + [] == Norms(own);
    }
  }

  /**
   * The order in which the employee handle set lists its members: first
   * appearance among the employees' own normal forms and then, when there is
   * an employee, the mapping table's.
   */
  function KnownOrder(own: seq<string>, mapped: seq<string>): seq<string>
  {
    Dedup(Norms(own) + (if |own| > 0 then Norms(mapped) else []))
  }
}
