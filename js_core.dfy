/**
 * The parts of the JavaScript runtime that the modelled front end relies on:
 * fields that may be missing, numbers that may be NaN, truthiness, and the
 * TypeError thrown by a property access on a missing value.
 */
module JsCore {

  /** A field that may be missing; `None` stands for both `undefined` and `null`. */
  datatype Option<+T> = None | Some(value: T)

  /** The result of evaluating code that may throw a TypeError. */
  datatype Outcome<+T> = Returned(value: T) | ThrewTypeError

  /**
   * A JavaScript number. Doubles are modelled by exact reals; NaN is kept
   * because `parseFloat` produces it and every comparison with it is false.
   */
  datatype Number = NaN | Finite(r: real)

  /** `n` used as a condition: NaN and zero are falsy. */
  predicate TruthyNumber(n: Number)
  {
    n.Finite? && n.r != 0.0
  }

  /** A possibly missing number used as a condition. */
  predicate TruthyOptNumber(n: Option<Number>)
  {
    n.Some? && TruthyNumber(n.value)
  }

  /** A possibly missing string used as a condition: missing and `""` are falsy. */
  predicate TruthyText(s: Option<string>)
  {
    s.Some? && s.value != ""
  }

  /** `a < b`, false whenever either side is NaN. */
  predicate Less(a: Number, b: Number)
  {
    a.Finite? && b.Finite? && a.r < b.r
  }

  /** `a > b`, false whenever either side is NaN. */
  predicate Greater(a: Number, b: Number)
  {
    Less(b, a)
  }

  /**
   * `a || b || ... || fallback` over possibly missing strings: the first
   * truthy alternative, or the fallback when none is.
   */
  function OrChain(alternatives: seq<Option<string>>, fallback: string): (r: string)
    ensures (exists i :: 0 <= i < |alternatives| && FirstTruthyAt(alternatives, i) && r == alternatives[i].value)
         || ((forall i :: 0 <= i < |alternatives| ==> !TruthyText(alternatives[i])) && r == fallback)
  {
    if |alternatives| == 0 then fallback
    else if TruthyText(alternatives[0]) then
      assert FirstTruthyAt(alternatives, 0);
      alternatives[0].value
    else
      var r := OrChain(alternatives[1..], fallback);
      FirstTruthyShift(alternatives);
      r
  }

  /** Alternative `i` is truthy and every one before it is falsy. */
  predicate FirstTruthyAt(alternatives: seq<Option<string>>, i: int)
  {
    0 <= i < |alternatives| && TruthyText(alternatives[i])
    && forall j :: 0 <= j < i ==> !TruthyText(alternatives[j])
  }

  /** Dropping a falsy head shifts the first truthy position by one. */
  lemma FirstTruthyShift(alternatives: seq<Option<string>>)
    requires |alternatives| > 0 && !TruthyText(alternatives[0])
    ensures forall i :: FirstTruthyAt(alternatives[1..], i) ==> FirstTruthyAt(alternatives, i + 1)
    ensures (forall i :: 0 <= i < |alternatives[1..]| ==> !TruthyText(alternatives[1..][i]))
            ==> forall i :: 0 <= i < |alternatives| ==> !TruthyText(alternatives[i])
  {
    forall i | FirstTruthyAt(alternatives[1..], i)
      ensures FirstTruthyAt(alternatives, i + 1)
    {
      forall j | 0 <= j < i + 1
        ensures !TruthyText(alternatives[j])
      {
        if j > 0 {
          assert alternatives[j] == alternatives[1..][j - 1];
        }
      }
    }
    if forall i :: 0 <= i < |alternatives[1..]| ==> !TruthyText(alternatives[1..][i]) {
      forall i | 0 <= i < |alternatives|
        ensures !TruthyText(alternatives[i])
      {
        if i > 0 {
          assert alternatives[i] == alternatives[1..][i - 1];
        }
      }
    }
  }

  /**
   * `{ ...s, [outer]: { ...s[outer], [key]: value } }`: the one key takes the
   * value; every other key of that inner object and every other outer key is
   * kept (spreading a missing inner object spreads nothing).
   */
  function SetNested<V>(s: map<string, map<string, V>>, outer: string, key: string, value: V): (r: map<string, map<string, V>>)
    ensures r.Keys == s.Keys + {outer}
    ensures outer in s ==> r[outer].Keys == s[outer].Keys + {key}
    ensures outer !in s ==> r[outer].Keys == {key}
    ensures r[outer][key] == value
    ensures forall k :: outer in s && k in s[outer] && k != key ==> r[outer][k] == s[outer][k]
    ensures forall other :: other in s && other != outer ==> r[other] == s[other]
  {
    var current := if outer in s then s[outer] else map[];
    s[outer := current[key := value]]
  }

  /** A second edit of the same key replaces the first. */
  lemma SetNestedLastWriteWins<V>(s: map<string, map<string, V>>, outer: string, key: string, first: V, second: V)
    ensures SetNested(SetNested(s, outer, key, first), outer, key, second) == SetNested(s, outer, key, second)
  {
    var current := if outer in s then s[outer] else map[];
    assert current[key := first][key := second] == current[key := second];
  }
}
