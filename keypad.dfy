/** The fixed multi-tap keypad table and the rule that turns one run of
    presses of a single key into (at most) one output symbol. */
module Keypad {

  /** Number of presses in a run; a run always holds at least one press. */
  type Presses = n: nat | n >= 1 witness 1

  /** Each key of the keypad and the symbols it cycles through, in order. */
  const KeypadMap: map<char, string> := map[
    '0' := " ",
    '1' := "&'(",
    '2' := "ABC",
    '3' := "DEF",
    '4' := "GHI",
    '5' := "JKL",
    '6' := "MNO",
    '7' := "PQRS",
    '8' := "TUV",
    '9' := "WXYZ"
  ]

  /** The keys of the table are exactly the ten decimal digits, and no key
      has an empty symbol list. */
  lemma TableShape()
    ensures forall k :: k in KeypadMap <==> '0' <= k <= '9'
    ensures forall k :: k in KeypadMap ==> 1 <= |KeypadMap[k]| <= 4
  {
  }

  /** A symbol the keypad can produce: it appears in some key's list. */
  ghost predicate IsSymbol(c: char) {
    exists k :: k in KeypadMap && c in KeypadMap[k]
  }

  /** The output of resolving `presses` presses of `key`: nothing for a key
      outside the table, otherwise the symbol at index
      (presses - 1) mod (number of symbols). Both operands are non-negative,
      so the truncating remainder of the source and Dafny's Euclidean one agree. */
  function Resolve(key: char, presses: Presses): (r: string)
    ensures key !in KeypadMap ==> r == []
    ensures key in KeypadMap ==> |r| == 1 && r[0] in KeypadMap[key]
  {
    if key !in KeypadMap then []
    else
      var letters := KeypadMap[key];
      [letters[(presses - 1) % |letters|]]
  }

  /** Pressing a mapped key i+1 times, for i within its symbol list, selects
      exactly its i-th symbol. */
  lemma ResolveSelects(key: char, i: nat)
    requires key in KeypadMap && i < |KeypadMap[key]|
    ensures Resolve(key, i + 1) == [KeypadMap[key][i]]
  {
  }

  /** Pressing a mapped key as many more times as it has symbols wraps back
      to the same symbol. */
  lemma ResolveWraps(key: char, presses: Presses)
    requires key in KeypadMap
    ensures Resolve(key, presses + |KeypadMap[key]|) == Resolve(key, presses)
  {
    TableShape();
    var len := |KeypadMap[key]|;
    var q := (presses - 1) / len;
    var m := (presses - 1) % len;
    assert presses - 1 == q * len + m;
    assert presses + len - 1 == (q + 1) * len + m;
  }

  /** Every symbol resolution produces is a keypad symbol. */
  lemma ResolveIsSymbol(key: char, presses: Presses)
    ensures forall c :: c in Resolve(key, presses) ==> IsSymbol(c)
  {
    if key in KeypadMap {
      assert Resolve(key, presses)[0] in KeypadMap[key];
    }
  }
}
