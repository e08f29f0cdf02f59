/**
 * The string operations the front end uses: ASCII case mapping
 * (`toLowerCase`, `toUpperCase`), substring search (`includes`), counting
 * the matches of a global literal regular expression, `join`, `split`, and
 * `forEach` appending to a string.
 */
module JsStrings {
  import opened JsCore

  function LowerChar(c: char): char
  {
    if 'A' <= c <= 'Z' then (c as int + 32) as char else c
  }

  function UpperChar(c: char): char
  {
    if 'a' <= c <= 'z' then (c as int - 32) as char else c
  }

  /** `s.toLowerCase()` on ASCII letters. */
  function Lower(s: string): (r: string)
    ensures |r| == |s|
    ensures forall i :: 0 <= i < |s| ==> r[i] == LowerChar(s[i])
  {
    seq(|s|, i requires 0 <= i < |s| => LowerChar(s[i]))
  }

  /** `s.toUpperCase()` on ASCII letters. */
  function Upper(s: string): (r: string)
    ensures |r| == |s|
    ensures forall i :: 0 <= i < |s| ==> r[i] == UpperChar(s[i])
  {
    seq(|s|, i requires 0 <= i < |s| => UpperChar(s[i]))
  }

  /** `q` occurs in `s` starting at position `i`. */
  predicate OccursAt(s: string, q: string, i: int)
  {
    0 <= i && i + |q| <= |s| && s[i..i + |q|] == q
  }

  /** `s.includes(q)`. */
  predicate Contains(s: string, q: string)
  {
    exists i :: 0 <= i <= |s| - |q| && OccursAt(s, q, i)
  }

  /**
   * The number of matches that `s.match(/q/g)` finds from position `i`,
   * for a non-empty literal `q`: the scan tries each position, and after a
   * match resumes at the end of it, so matches never overlap.
   */
  function CountFrom(s: string, q: string, i: nat): (n: nat)
    requires q != []
    decreases |s| - i
    ensures i <= |s| ==> n * |q| <= |s| - i
  {
    if i + |q| > |s| then 0
    else if OccursAt(s, q, i) then
      var rest := CountFrom(s, q, i + |q|);
      assert (1 + rest) * |q| == |q| + rest * |q|;
      1 + rest
    else CountFrom(s, q, i + 1)
  }

  /** The scan finds a match exactly when `q` occurs somewhere from `i` on. */
  lemma {:induction false} CountFromPositive(s: string, q: string, i: nat)
    requires q != []
    ensures CountFrom(s, q, i) > 0 <==> exists j :: i <= j && OccursAt(s, q, j)
    decreases |s| - i
  {
    if i + |q| > |s| {
      assert forall j :: i <= j ==> !OccursAt(s, q, j);
    } else if OccursAt(s, q, i) {
    } else {
      CountFromPositive(s, q, i + 1);
      assert forall j :: i <= j && OccursAt(s, q, j) ==> i + 1 <= j;
    }
  }

  /** Counting from the start finds a match exactly when `s.includes(q)`. */
  lemma CountPositiveIffContains(s: string, q: string)
    requires q != []
    ensures CountFrom(s, q, 0) > 0 <==> Contains(s, q)
  {
    CountFromPositive(s, q, 0);
    if Contains(s, q) {
      var i :| 0 <= i <= |s| - |q| && OccursAt(s, q, i);
      assert 0 <= i && OccursAt(s, q, i);
    }
    if CountFrom(s, q, 0) > 0 {
      var j :| 0 <= j && OccursAt(s, q, j);
      assert 0 <= j <= |s| - |q| && OccursAt(s, q, j);
    }
  }

  /**
   * `s.length`: the number of UTF-16 code units, two for a character
   * outside the Basic Multilingual Plane and one for any other.
   */
  function Utf16Length(s: string): (n: nat)
    ensures |s| <= n <= 2 * |s|
    ensures n == 0 <==> s == ""
    ensures (forall i :: 0 <= i < |s| ==> s[i] as int < 0x1_0000) ==> n == |s|
  {
    if |s| == 0 then 0
    else Utf16Length(s[..|s| - 1]) + (if s[|s| - 1] as int < 0x1_0000 then 1 else 2)
  }

  /**
   * The character whose UTF-16 encoding holds code unit `u` of `s`: the
   * character itself when it lies in the Basic Multilingual Plane, and
   * otherwise the whole character one of whose two surrogates sits at `u`.
   */
  function CharAtUnit(s: string, u: nat): (c: char)
    requires u < Utf16Length(s)
    ensures c in s
    ensures (forall i :: 0 <= i < |s| ==> s[i] as int < 0x1_0000) ==> c == s[u]
  {
    var init := s[..|s| - 1];
    if u < Utf16Length(init) then
      var c := CharAtUnit(init, u);
      assert c in s by { assert init <= s; }
      c
    else s[|s| - 1]
  }

  /** A prefix of a text stays a prefix when more is appended. */
  lemma PrefixExtends(a: string, b: string, c: string)
    requires a <= b
    ensures a <= b + c
  {
    assert (b + c)[..|a|] == b[..|a|];
  }

  /** The summed length of the parts. */
  function TotalLength(parts: seq<string>): nat
  {
    if |parts| == 0 then 0 else TotalLength(parts[..|parts| - 1]) + |parts[|parts| - 1]|
  }

  /** `parts.join(sep)`: the parts in order with one separator between neighbours. */
  function Join(parts: seq<string>, sep: string): (r: string)
    ensures |parts| == 0 ==> r == ""
    ensures |parts| >= 1 ==> |r| == TotalLength(parts) + (|parts| - 1) * |sep|
    ensures |parts| >= 1 ==> parts[0] <= r
  {
    if |parts| == 0 then ""
    else if |parts| == 1 then parts[0]
    else
      var init := Join(parts[..|parts| - 1], sep);
      assert (|parts| - 1) * |sep| == (|parts| - 2) * |sep| + |sep|;
      assert parts[..|parts| - 1][0] == parts[0];
      init + sep + parts[|parts| - 1]
  }

  /** `s.split(sep)` for a one-character separator; `"".split(sep)` is `[""]`. */
  function Split(s: string, sep: char): (parts: seq<string>)
    ensures |parts| >= 1
  {
    if |s| == 0 then [""]
    else
      var init := Split(s[..|s| - 1], sep);
      if s[|s| - 1] == sep then init + [""]
      else init[..|init| - 1] + [init[|init| - 1] + [s[|s| - 1]]]
  }

  /** Joining a non-empty list with one more part. */
  lemma JoinSnoc(parts: seq<string>, last: string, sep: string)
    requires |parts| >= 1
    ensures Join(parts + [last], sep) == Join(parts, sep) + sep + last
  {
    assert (parts + [last])[..|parts|] == parts;
  }

  /** Splitting on `sep` and joining back with `sep` gives the original text. */
  lemma {:induction false} SplitJoinRoundTrip(s: string, sep: char)
    ensures Join(Split(s, sep), [sep]) == s
  {
    if |s| > 0 {
      var prefix := s[..|s| - 1];
      var c := s[|s| - 1];
      var init := Split(prefix, sep);
      SplitJoinRoundTrip(prefix, sep);
      assert s == prefix + [c];
      if c == sep {
        JoinSnoc(init, "", [sep]);
      } else {
        JoinExtendLast(init, c, [sep]);
      }
    }
  }

  /** Appending a character to the last part appends it to the joined text. */
  lemma JoinExtendLast(parts: seq<string>, c: char, sep: string)
    requires |parts| >= 1
    ensures Join(parts[..|parts| - 1] + [parts[|parts| - 1] + [c]], sep) == Join(parts, sep) + [c]
  {
    var front := parts[..|parts| - 1];
    var last := parts[|parts| - 1];
    assert parts == front + [last];
    if |front| > 0 {
      JoinSnoc(front, last, sep);
      JoinSnoc(front, last + [c], sep);
    }
  }

  /** No part of a split holds the separator. */
  lemma {:induction false} SplitPartsLackSeparator(s: string, sep: char)
    ensures forall k :: 0 <= k < |Split(s, sep)| ==> sep !in Split(s, sep)[k]
  {
    if |s| > 0 {
      var prefix := s[..|s| - 1];
      var c := s[|s| - 1];
      var init := Split(prefix, sep);
      SplitPartsLackSeparator(prefix, sep);
      if c != sep {
        var front := init[..|init| - 1];
        var last := init[|init| - 1];
        assert Split(s, sep) == front + [last + [c]];
        assert sep !in last + [c];
      }
    }
  }

  /** The strings of a list that are truthy, in order (`list.filter(Boolean)`). */
  function FilterTruthy(items: seq<Option<string>>): (r: seq<string>)
    ensures forall k :: 0 <= k < |r| ==> r[k] != ""
  {
    if |items| == 0 then []
    else
      var init := FilterTruthy(items[..|items| - 1]);
      if TruthyText(items[|items| - 1]) then init + [items[|items| - 1].value] else init
  }

  /** Joining non-empty parts gives the empty text exactly when there are no parts. */
  lemma {:induction false} JoinEmptyIff(parts: seq<string>, sep: string)
    requires forall k :: 0 <= k < |parts| ==> parts[k] != ""
    ensures Join(parts, sep) == "" <==> |parts| == 0
  {
    if |parts| >= 2 {
      assert parts[|parts| - 1] != "";
      assert |Join(parts, sep)| >= |parts[|parts| - 1]|;
    }
  }

  /** What `forEach` appends when each item contributes `render(item)`. */
  function ConcatMap<T>(items: seq<T>, render: T -> string): string
  {
    if |items| == 0 then "" else ConcatMap(items[..|items| - 1], render) + render(items[|items| - 1])
  }

  /** `items.map(f)`: each item through `f`, in order. */
  function MapSeq<T, U>(items: seq<T>, f: T -> U): (r: seq<U>)
    ensures |r| == |items|
    ensures forall k :: 0 <= k < |items| ==> r[k] == f(items[k])
  {
    if |items| == 0 then [] else MapSeq(items[..|items| - 1], f) + [f(items[|items| - 1])]
  }

  /** Rendering each item through `f` first renders the same text. */
  lemma {:induction false} ConcatMapCompose<T, U>(items: seq<T>, f: T -> U, render: U -> string, composed: T -> string)
    requires forall x :: composed(x) == render(f(x))
    ensures ConcatMap(items, composed) == ConcatMap(MapSeq(items, f), render)
  {
    if |items| > 0 {
      var init := items[..|items| - 1];
      ConcatMapCompose(init, f, render, composed);
      var mapped := MapSeq(items, f);
      assert mapped[..|mapped| - 1] == MapSeq(init, f);
    }
  }

  /**
   * `items.forEach(item => { acc += render(item) })`: the loop that every
   * report section runs over its list.
   */
  method AppendEach<T>(acc: string, items: seq<T>, render: T -> string) returns (r: string)
    ensures r == acc + ConcatMap(items, render)
  {
    r := acc;
    for i := 0 to |items|
      invariant r == acc + ConcatMap(items[..i], render)
    {
      assert items[..i + 1][..i] == items[..i];
      r := r + render(items[i]);
    }
    assert items[..|items|] == items;
  }

  /**
   * Skipping the falsy items inside the loop renders the same text as
   * filtering them out first: `forEach(x => { if (x) acc += bullet(x) })`
   * equals rendering `filter(Boolean)`.
   */
  lemma {:induction false} SkipFalsyIsFilter(items: seq<Option<string>>, render: Option<string> -> string, bullet: string -> string)
    requires forall x :: render(x) == if TruthyText(x) then bullet(x.value) else ""
    ensures ConcatMap(items, render) == ConcatMap(FilterTruthy(items), bullet)
  {
    if |items| > 0 {
      var init := items[..|items| - 1];
      var last := items[|items| - 1];
      SkipFalsyIsFilter(init, render, bullet);
      if TruthyText(last) {
        var filtered := FilterTruthy(init) + [last.value];
        assert filtered[..|filtered| - 1] == FilterTruthy(init);
      }
    }
  }
}
