/** General helpers of the front end (`prompt_fill/src/utils/helpers.js`):
    collision-free key names, localized text lookup and the 32-bit string
    hash. JavaScript values are decoded JSON values; `undefined` is `None`. */
module Helpers {
  import opened Wrappers
  import opened Text
  import opened Dicts
  import opened JsonValues

  /** `${base}_${suffix}${n}`, the n-th candidate; n = 0 is the one without a number. */
  function Candidate(base: string, suffix: string, n: nat): string {
    base + "_" + suffix + (if n == 0 then "" else NatToString(n))
  }

  /** Different numbers make different candidates. */
  lemma CandidateInjective(base: string, suffix: string, m: nat, n: nat)
    requires Candidate(base, suffix, m) == Candidate(base, suffix, n)
    ensures m == n
  {
    var p := base + "_" + suffix;
    var a := Candidate(base, suffix, m);
    var b := Candidate(base, suffix, n);
    assert a[|p|..] == (if m == 0 then "" else NatToString(m));
    assert b[|p|..] == (if n == 0 then "" else NatToString(n));
    if m != 0 && n != 0 {
      NatToStringInjective(m, n);
    }
  }

  /** `makeUniqueKey(base, existingKeys, suffix)`: the first free candidate,
      trying the plain one and then the numbers 1, 2, ... in turn. An
      omitted suffix (`None`) is "custom". */
  method MakeUniqueKey(base: string, existingKeys: set<string>, suffix: Option<string>) returns (key: string)
    ensures key !in existingKeys
    ensures exists n: nat :: key == Candidate(base, suffix.GetOr("custom"), n) &&
                             forall m: nat :: m < n ==> Candidate(base, suffix.GetOr("custom"), m) in existingKeys
  {
    var sfx := suffix.GetOr("custom");
    key := Candidate(base, sfx, 0);
    var counter := 1;
    ghost var seen: set<string> := {};
    while key in existingKeys
      invariant counter >= 1 && key == Candidate(base, sfx, counter - 1)
      invariant forall m: nat :: m < counter - 1 ==> Candidate(base, sfx, m) in existingKeys
      invariant seen <= existingKeys && key !in seen
      invariant forall x :: x in seen ==> exists m: nat :: m < counter - 1 && x == Candidate(base, sfx, m)
      decreases |existingKeys - seen|
    {
      FreshStep(base, existingKeys, sfx, counter, seen, seen + {key});
      seen := seen + {key};
      key := Candidate(base, sfx, counter);
      counter := counter + 1;
    }
  }

  /** One more candidate found taken: the invariants of the search carry over. */
  lemma FreshStep(base: string, existingKeys: set<string>, suffix: string, counter: nat, seen: set<string>,
                  seen': set<string>)
    requires counter >= 1 && Candidate(base, suffix, counter - 1) in existingKeys
    requires forall m: nat :: m < counter - 1 ==> Candidate(base, suffix, m) in existingKeys
    requires forall x :: x in seen ==> exists m: nat :: m < counter - 1 && x == Candidate(base, suffix, m)
    requires seen' == seen + {Candidate(base, suffix, counter - 1)}
    ensures forall m: nat :: m < counter ==> Candidate(base, suffix, m) in existingKeys
    ensures forall x :: x in seen' ==> exists m: nat :: m < counter && x == Candidate(base, suffix, m)
    ensures Candidate(base, suffix, counter) !in seen'
  {
    var key := Candidate(base, suffix, counter);
    forall x | x in seen'
      ensures x != key
    {
      var m: nat :| m < counter && x == Candidate(base, suffix, m);
      if x == key {
        CandidateInjective(base, suffix, m, counter);
      }
    }
  }

  /** `a ?? b`: `a` unless it is `null` or `undefined`. */
  function Coalesce(a: Option<Json>, b: Option<Json>): (r: Option<Json>)
    ensures a.Some? && !a.value.JNull? ==> r == a
    ensures a.None? || a.value.JNull? ==> r == b
  {
    if a.Some? && !a.value.JNull? then a else b
  }

  /** Whether a property name is a canonical array index (digits, no leading zero). */
  predicate IsIndexName(name: string) {
    name != [] && (forall i :: 0 <= i < |name| ==> IsDigit(name[i])) && (name == "0" || name[0] != '0')
  }

  /** `value[name]` for a property name: an object's own entry, a list's
      `length` or element, a string's `length` in UTF-16 code units. */
  function Property(v: Json, name: string): Option<Json> {
    match v
    case JObj(fields) => Lookup(fields, name)
    case JArr(items) =>
      if name == "length" then Some(JNum(|items|))
      else if IsIndexName(name) && DigitsValue(name) < |items| then Some(items[DigitsValue(name)])
      else None
    case JStr(s) => if name == "length" then Some(JNum(|Utf16(s)|)) else None
    case _ => None
  }

  /** `Object.values(value)[0]` */
  function FirstValue(v: Json): Option<Json> {
    match v
    case JObj(fields) => if fields == [] then None else Some(fields[0].1)
    case JArr(items) => if items == [] then None else Some(items[0])
    case _ => None
  }

  /** `getLocalized(obj, language)`: "" for a falsy value, a string as it
      is, and otherwise the first of `obj[language]`, `obj.en`, `obj.cn` and
      `Object.values(obj)[0]` that is neither `null` nor `undefined`, and ""
      when none is. The result is never `null`. */
  function GetLocalized(obj: Option<Json>, language: string): (r: Json)
    ensures obj.None? || !JsTruthy(obj.value) ==> r == JStr("")
    ensures obj.Some? && obj.value.JStr? ==> r == obj.value
    ensures !r.JNull?
  {
    if obj.None? || !JsTruthy(obj.value) then JStr("")
    else if obj.value.JStr? then obj.value
    else
      var v := obj.value;
      var chosen := Coalesce(Property(v, language), Coalesce(Property(v, "en"), Coalesce(Property(v, "cn"),
                      Coalesce(FirstValue(v), Some(JStr(""))))));
      chosen.GetOr(JStr(""))
  }

  /** The entry for the language wins whenever it is present and not null,
      even when it is the empty string; otherwise English, then Chinese, then
      the first entry of the object, and "" when that one is null too. */
  lemma GetLocalizedOrder(fields: Dict<string, Json>, language: string)
    requires fields != []
    ensures Lookup(fields, language).Some? && !Lookup(fields, language).value.JNull? ==>
              GetLocalized(Some(JObj(fields)), language) == Lookup(fields, language).value
    ensures (Lookup(fields, language).None? || Lookup(fields, language).value.JNull?) &&
            Lookup(fields, "en").Some? && !Lookup(fields, "en").value.JNull? ==>
              GetLocalized(Some(JObj(fields)), language) == Lookup(fields, "en").value
    ensures (Lookup(fields, language).None? || Lookup(fields, language).value.JNull?) &&
            (Lookup(fields, "en").None? || Lookup(fields, "en").value.JNull?) &&
            Lookup(fields, "cn").Some? && !Lookup(fields, "cn").value.JNull? ==>
              GetLocalized(Some(JObj(fields)), language) == Lookup(fields, "cn").value
    ensures (Lookup(fields, language).None? || Lookup(fields, language).value.JNull?) &&
            (Lookup(fields, "en").None? || Lookup(fields, "en").value.JNull?) &&
            (Lookup(fields, "cn").None? || Lookup(fields, "cn").value.JNull?) ==>
              GetLocalized(Some(JObj(fields)), language) == if fields[0].1.JNull? then JStr("") else fields[0].1
  {
  }

  /** JavaScript's `ToInt32`: the integer congruent modulo 2^32 in [-2^31, 2^31). */
  function ToInt32(x: int): (r: int)
    ensures -0x8000_0000 <= r < 0x8000_0000
    ensures (r - x) % 0x1_0000_0000 == 0
  {
    var m := x % 0x1_0000_0000;
    if m >= 0x8000_0000 then m - 0x1_0000_0000 else m
  }

  /** The hash of a sequence of UTF-16 code units: h := 31·h + unit, in 32 bits. */
  function Fold(units: seq<int>): (h: int)
    ensures -0x8000_0000 <= h < 0x8000_0000
    decreases |units|
  {
    if units == [] then 0 else ToInt32(31 * Fold(units[..|units| - 1]) + units[|units| - 1])
  }

  /** One step of the loop, `hash = ((hash << 5) - hash) + char; hash |= 0`,
      is 31·hash + char in 32 bits. */
  lemma ShiftStep(hash: int, c: int)
    ensures ToInt32(ToInt32(hash * 32) - hash + c) == ToInt32(31 * hash + c)
  {
    var a := ToInt32(hash * 32) - hash + c;
    var b := 31 * hash + c;
    assert (a - b) % 0x1_0000_0000 == 0;
    CongruentInt32(a, b);
  }

  lemma CongruentInt32(a: int, b: int)
    requires (a - b) % 0x1_0000_0000 == 0
    ensures ToInt32(a) == ToInt32(b)
  {
    var k := (a - b) / 0x1_0000_0000;
    assert a == b + k * 0x1_0000_0000;
    assert a % 0x1_0000_0000 == b % 0x1_0000_0000;
  }

  /** `hashCode(str)`: "0" for an absent or empty string, otherwise the
      decimal form of the 32-bit fold over its UTF-16 code units. */
  method HashCode(str: Option<string>) returns (r: string)
    ensures str.None? || str.value == [] ==> r == "0"
    ensures str.Some? ==> r == IntToString(Fold(Utf16(str.value)))
  {
    var hash := 0;
    if str.None? || str.value == [] {
      return IntToString(hash);
    }
    var units := Utf16(str.value);
    var i := 0;
    while i < |units|
      invariant 0 <= i <= |units|
      invariant hash == Fold(units[..i])
    {
      var c := units[i];
      ShiftStep(hash, c);
      assert units[..i + 1][..i] == units[..i];
      hash := ToInt32(ToInt32(hash * 32) - hash + c);
      i := i + 1;
    }
    assert units[..i] == units;
    r := IntToString(hash);
  }

  /** The hash without wrap-around: sum of unit·31^(n-1-i). */
  function Polynomial(units: seq<int>): int
    decreases |units|
  {
    if units == [] then 0 else 31 * Polynomial(units[..|units| - 1]) + units[|units| - 1]
  }

  /** The 32-bit hash is the polynomial hash reduced modulo 2^32 into the
      signed range: wrapping at every step loses nothing but the high bits. */
  lemma {:induction false} FoldPolynomial(units: seq<int>)
    ensures (Fold(units) - Polynomial(units)) % 0x1_0000_0000 == 0
    ensures Fold(units) == ToInt32(Polynomial(units))
    decreases |units|
  {
    if units != [] {
      var p := units[..|units| - 1];
      FoldPolynomial(p);
      HashSteps(units);
      CongruentStep(Fold(units), Fold(p), Polynomial(p), Polynomial(units), units[|units| - 1]);
    }
    CongruentInt32(Fold(units), Polynomial(units));
    ToInt32OfInt32(Fold(units));
  }

  /** A value already in the signed 32-bit range is its own `ToInt32`. */
  lemma ToInt32OfInt32(x: int)
    requires -0x8000_0000 <= x < 0x8000_0000
    ensures ToInt32(x) == x
  {
  }

  /** Both hashes take one step per unit. */
  lemma HashSteps(units: seq<int>)
    requires units != []
    ensures Fold(units) == ToInt32(31 * Fold(units[..|units| - 1]) + units[|units| - 1])
    ensures Polynomial(units) == 31 * Polynomial(units[..|units| - 1]) + units[|units| - 1]
  {
  }

  /** Congruence modulo 2^32 survives one step of the hash. */
  lemma CongruentStep(f: int, fp: int, pp: int, pu: int, c: int)
    requires f == ToInt32(31 * fp + c) && pu == 31 * pp + c
    requires (fp - pp) % 0x1_0000_0000 == 0
    ensures (f - pu) % 0x1_0000_0000 == 0
  {
    var k := (fp - pp) / 0x1_0000_0000;
    assert fp - pp == k * 0x1_0000_0000;
    assert (31 * fp + c) - pu == (31 * k) * 0x1_0000_0000;
    CongruentTrans(f, 31 * fp + c, pu);
  }

  lemma CongruentTrans(a: int, b: int, c: int)
    requires (a - b) % 0x1_0000_0000 == 0 && (b - c) % 0x1_0000_0000 == 0
    ensures (a - c) % 0x1_0000_0000 == 0
  {
    var k := (a - b) / 0x1_0000_0000;
    var j := (b - c) / 0x1_0000_0000;
    assert a - b == k * 0x1_0000_0000;
    assert b - c == j * 0x1_0000_0000;
    assert a - c == (k + j) * 0x1_0000_0000;
  }
}
