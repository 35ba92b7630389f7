/** The reference semantics of the keypad decoder: a left fold over the
    key-press stream whose state is the output produced so far and the run
    of presses still pending. */
module Decoder {
  import opened Keypad

  /** The argument of the decoder: the source's string reference may be null. */
  datatype Input = Null | Text(s: string)

  /** The single error kind, raised as an argument error by the source. */
  datatype Error = InvalidInput

  datatype Result<T> = Ok(value: T) | Err(error: Error)

  /** The run being accumulated: none, or `presses` presses of `key`. */
  datatype Pending = NoRun | Run(key: char, presses: Presses)

  /** Decoder state between two characters of the stream. */
  datatype Scan = Scan(out: string, pending: Pending)

  const Start := Scan([], NoRun)

  /** The platform's digit classification is only partly known: on the
      ASCII range it is exactly '0'..'9' (so the sentinel '\0', '*', ' '
      and '#' are not digits); beyond it, other decimal digits may count. */
  ghost predicate AgreesWithAsciiDigits(isDigit: char -> bool) {
    forall c: char :: c as int < 128 ==> (isDigit(c) <==> '0' <= c <= '9')
  }

  /** The control characters and the sentinel are never digits. */
  lemma ControlsAreNotDigits(isDigit: char -> bool)
    requires AgreesWithAsciiDigits(isDigit)
    ensures !isDigit('*') && !isDigit(' ') && !isDigit('#') && !isDigit('\0')
  {
    assert '*' as int < 128 && ' ' as int < 128 && '#' as int < 128 && '\0' as int < 128;
  }

  /** The output once the pending run, if any, has been resolved: the old
      output is kept, and it grows by one keypad symbol exactly when a run
      of a key in the table is pending. */
  function Commit(st: Scan): (out: string)
    ensures st.out <= out
    ensures |out| == |st.out| + 1 <==> st.pending.Run? && st.pending.key in KeypadMap
    ensures |out| <= |st.out| + 1
    ensures forall c :: c in out[|st.out|..] ==> IsSymbol(c)
  {
    match st.pending
    case NoRun => st.out
    case Run(k, n) =>
      ResolveIsSymbol(k, n);
      assert (st.out + Resolve(k, n))[|st.out|..] == Resolve(k, n);
      st.out + Resolve(k, n)
  }

  /** The output with its last character removed, if it has one. */
  function DropLast(s: string): (r: string)
    ensures s == [] ==> r == []
    ensures s != [] ==> r + [s[|s| - 1]] == s
  {
    if s == [] then [] else s[..|s| - 1]
  }

  /** One character of the stream:
      '*' resolves the pending run, then deletes the last output character;
      ' ' resolves the pending run;
      a digit extends a run of the same key, or resolves the pending run of
      another key and starts its own;
      anything else is skipped. */
  function Step(isDigit: char -> bool, st: Scan, c: char): Scan {
    if c == '*' then
      Scan(DropLast(Commit(st)), NoRun)
    else if c == ' ' then
      Scan(Commit(st), NoRun)
    else if isDigit(c) then
      match st.pending
      case Run(k, n) =>
        if k == c then Scan(st.out, Run(k, n + 1)) else Scan(Commit(st), Run(c, 1))
      case NoRun => Scan(st.out, Run(c, 1))
    else
      st
  }

  /** The state after the whole of `keys`, processed left to right. */
  function Feed(isDigit: char -> bool, st: Scan, keys: string): Scan
    decreases |keys|
  {
    if keys == [] then st else Feed(isDigit, Step(isDigit, st, keys[0]), keys[1..])
  }

  /** The decoder: the input must be present, non-empty and end with '#';
      the final '#' is dropped, the rest is scanned, and a run still
      pending at the end is resolved. */
  function Decode(isDigit: char -> bool, input: Input): (r: Result<string>)
    ensures r.Err? <==> input.Null? || input.s == [] || input.s[|input.s| - 1] != '#'
  {
    match input
    case Null => Err(InvalidInput)
    case Text(s) =>
      if s == [] || s[|s| - 1] != '#' then Err(InvalidInput)
      else Ok(Commit(Feed(isDigit, Start, s[..|s| - 1])))
  }

  /** Feeding a concatenation is feeding its parts one after the other. */
  lemma {:induction false} FeedAppend(isDigit: char -> bool, st: Scan, a: string, b: string)
    ensures Feed(isDigit, st, a + b) == Feed(isDigit, Feed(isDigit, st, a), b)
    decreases |a|
  {
    if a == [] {
      assert a + b == b;
    } else {
      assert (a + b)[0] == a[0] && (a + b)[1..] == a[1..] + b;
      FeedAppend(isDigit, Step(isDigit, st, a[0]), a[1..], b);
    }
  }

  /** Feeding one character more is one more step. */
  lemma FeedSnoc(isDigit: char -> bool, st: Scan, a: string, c: char)
    ensures Feed(isDigit, st, a + [c]) == Step(isDigit, Feed(isDigit, st, a), c)
  {
    FeedAppend(isDigit, st, a, [c]);
    assert Feed(isDigit, Feed(isDigit, st, a), [c])
        == Feed(isDigit, Step(isDigit, Feed(isDigit, st, a), c), []);
  }
}
