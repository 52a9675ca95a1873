/** The naming scheme behind `getUniqueName` in src/pages/api/generate.ts:
    a per-base counter, and the name the k-th request for a base receives. */
module Naming {
  import opened Text

  /** `componentCounters[base] || 0` on counters that hold only the keys
      the route itself sets: a base never counted reads 0. */
  function CounterOf(counters: map<string, nat>, base: string): nat
  {
    if base in counters then counters[base] else 0
  }

  /** The name handed out when the counter for `base` reaches `k`: the bare
      base the first time, the base followed by the count after that. */
  function NameFor(base: string, k: nat): string
  {
    if k > 1 then base + Digits(k) else base
  }

  /** A name starts with its base, and is the bare base exactly for the
      first request. */
  lemma NameForShape(base: string, k: nat)
    ensures var n := NameFor(base, k);
            |base| <= |n| && n[..|base|] == base && (n == base <==> k <= 1)
  {
    if k > 1 {
      assert |Digits(k)| >= 1;
    }
  }

  /** For bases without digits (every category name), the name determines
      both the base and the count, so no two requests share a name. */
  lemma NameForInjective(b1: string, k1: nat, b2: string, k2: nat)
    requires DigitFree(b1) && DigitFree(b2) && k1 >= 1 && k2 >= 1
    requires NameFor(b1, k1) == NameFor(b2, k2)
    ensures b1 == b2 && k1 == k2
  {
    var n := NameFor(b1, k1);
    if k1 > 1 && k2 > 1 {
      assert |b1| == |b2| by {
        FirstDigitAt(b1, k1, n);
        FirstDigitAt(b2, k2, n);
      }
      assert b1 == n[..|b1|] == b2;
      assert Digits(k1) == n[|b1|..] == Digits(k2);
      DigitsInjective(k1, k2);
    } else if k1 > 1 {
      FirstDigitAt(b1, k1, n);
    } else if k2 > 1 {
      FirstDigitAt(b2, k2, n);
    }
  }

  /** In `base + Digits(k)` the first digit stands right after the base. */
  lemma FirstDigitAt(base: string, k: nat, n: string)
    requires DigitFree(base) && n == base + Digits(k)
    ensures |base| < |n| && IsDigit(n[|base|])
    ensures forall i :: 0 <= i < |base| ==> !IsDigit(n[i])
  {
  }

  /** A name carries a line break only if its base does. */
  lemma NameForOneLine(base: string, k: nat)
    requires '\n' !in base
    ensures '\n' !in NameFor(base, k)
  {
    if k > 1 {
      var d := Digits(k);
      assert forall i :: 0 <= i < |d| ==> d[i] != '\n';
    }
  }

  /** The third request for "Gallery" is named "Gallery3". */
  lemma ThirdGallery()
    ensures NameFor("Gallery", 1) == "Gallery"
    ensures NameFor("Gallery", 2) == "Gallery2"
    ensures NameFor("Gallery", 3) == "Gallery3"
  {
  }

  // ----- The counters as the code writes them -----

  /** The members a plain object literal such as `componentCounters`
      inherits from `Object.prototype`. Reading one of them as a counter
      gives a function (for `__proto__`, the prototype object), not a
      number. */
  const PrototypeMembers: set<string> :=
    {"constructor", "hasOwnProperty", "isPrototypeOf", "propertyIsEnumerable",
     "toLocaleString", "toString", "valueOf", "__defineGetter__", "__defineSetter__",
     "__lookupGetter__", "__lookupSetter__", "__proto__"}

  /** A counter slot as JavaScript reads it: a number, or a value that is
      not one (an inherited member, or the string that `member + 1` makes). */
  datatype Slot = Count(n: nat) | NotANumber

  /** `componentCounters[base]` on a plain object. An own key shadows an
      inherited member, except `__proto__`, which is never an own key. */
  function ReadSlot(counters: map<string, Slot>, base: string): (v: Slot)
    ensures base == "__proto__" ==> v == NotANumber
    ensures base != "__proto__" && base in counters ==> v == counters[base]
    ensures base !in PrototypeMembers && base !in counters ==> v == Count(0)
    ensures base in PrototypeMembers && base !in counters ==> v == NotANumber
  {
    if base == "__proto__" then NotANumber
    else if base in counters then counters[base]
    else if base in PrototypeMembers then NotANumber
    else Count(0)
  }

  /** The counters and the name one call leaves behind. */
  datatype Named = Named(counters: map<string, Slot>, name: string)

  /** `getUniqueName(base)` as written, on a plain object. `(x || 0) + 1`
      counts on from a number; on a non-number it concatenates, and the
      resulting string is never `> 1`, so the bare base is returned.
      Assigning a string to `__proto__` is ignored. */
  function AsWrittenUniqueName(counters: map<string, Slot>, base: string): (r: Named)
    ensures ReadSlot(counters, base).NotANumber? ==> r.name == base
    ensures ReadSlot(counters, base).Count? ==> r.name == NameFor(base, ReadSlot(counters, base).n + 1)
    ensures base == "__proto__" ==> r.counters == counters
    ensures base != "__proto__" ==> r.counters == counters[base := if ReadSlot(counters, base).Count?
                                                                  then Count(ReadSlot(counters, base).n + 1)
                                                                  else NotANumber]
  {
    var next := match ReadSlot(counters, base)
                case Count(n) => Count(n + 1)
                case NotANumber => NotANumber;
    var counters' := if base == "__proto__" then counters else counters[base := next];
    var name := if next.Count? then NameFor(base, next.n) else base;
    Named(counters', name)
  }

  /** The reset as written: every own key, as `Object.keys` lists them, set
      to 0. */
  function AsWrittenReset(counters: map<string, Slot>): (r: map<string, Slot>)
    ensures r.Keys == counters.Keys
    ensures forall b :: b in r ==> r[b] == Count(0)
  {
    map b | b in counters :: Count(0)
  }

  /** Counters of the model seen as JavaScript slots. */
  function AsSlots(counters: map<string, nat>): (m: map<string, Slot>)
    ensures m.Keys == counters.Keys
    ensures forall b :: b in counters ==> m[b] == Count(counters[b])
  {
    map b | b in counters :: Count(counters[b])
  }

  /** Away from the inherited members the code as written and the model
      agree on one call: the same name and the same counters after it. */
  lemma AgreesOffPrototype(counters: map<string, nat>, base: string)
    requires base !in PrototypeMembers
    ensures AsWrittenUniqueName(AsSlots(counters), base)
         == Named(AsSlots(counters[base := CounterOf(counters, base) + 1]),
                  NameFor(base, CounterOf(counters, base) + 1))
  {
    var k := CounterOf(counters, base) + 1;
    var r := AsWrittenUniqueName(AsSlots(counters), base);
    assert ReadSlot(AsSlots(counters), base) == Count(k - 1);
    assert r.counters == AsSlots(counters)[base := Count(k)];
    assert AsSlots(counters)[base := Count(k)] == AsSlots(counters[base := k]);
  }

  /** ... and on the reset. */
  lemma ResetAgrees(counters: map<string, nat>)
    ensures AsWrittenReset(AsSlots(counters)) == AsSlots(map b | b in counters :: 0)
  {
    assert AsWrittenReset(AsSlots(counters)).Keys == (map b | b in counters :: 0).Keys;
  }

  /** On fresh counters, two requests for "toString" both get the bare
      name "toString": two components would import the same file. */
  lemma PrototypeNameRepeats()
    ensures var first := AsWrittenUniqueName(map[], "toString");
            var second := AsWrittenUniqueName(first.counters, "toString");
            first.name == "toString" && second.name == "toString"
  {
    var first := AsWrittenUniqueName(map[], "toString");
    assert ReadSlot(map[], "toString") == NotANumber;
    assert first.counters == map["toString" := NotANumber];
    assert ReadSlot(first.counters, "toString") == NotANumber;
  }

  /** Once an earlier request has made "toString" an own key, the reset sets
      it to 0 and the same two requests get "toString" and "toString2": the
      names depend on the requests that came before. */
  lemma PrototypeNamesDependOnHistory()
    ensures var before := AsWrittenUniqueName(map[], "toString").counters;
            var first := AsWrittenUniqueName(AsWrittenReset(before), "toString");
            var second := AsWrittenUniqueName(first.counters, "toString");
            first.name == "toString" && second.name == "toString2"
  {
    var before := AsWrittenUniqueName(map[], "toString").counters;
    assert ReadSlot(map[], "toString") == NotANumber;
    assert before == map["toString" := NotANumber];
    var reset := AsWrittenReset(before);
    assert reset == map["toString" := Count(0)];
    var first := AsWrittenUniqueName(reset, "toString");
    assert ReadSlot(reset, "toString") == Count(0);
    assert first.counters == map["toString" := Count(1)];
    assert ReadSlot(first.counters, "toString") == Count(1);
    assert Digits(2) == "2";
  }
}
