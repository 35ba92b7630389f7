/** What the decoder guarantees: how runs, pauses, backspaces and other
    characters shape the output, bounds on the output, and that typing a
    text key by key and decoding it gives the text back. */
module DecoderProperties {
  import opened Keypad
  import opened Decoder

  /** `n` presses of the same key. */
  function Repeat(k: char, n: nat): (s: string)
    ensures |s| == n && forall i :: 0 <= i < n ==> s[i] == k
  {
    seq(n, _ => k)
  }

  /** The number of characters of `s` the digit classification accepts. */
  function DigitCount(isDigit: char -> bool, s: string): nat {
    if s == [] then 0 else (if isDigit(s[0]) then 1 else 0) + DigitCount(isDigit, s[1..])
  }

  /** The characters of the stream are the decoder's input minus the final '#'. */
  lemma StripTerminator(isDigit: char -> bool, body: string)
    ensures Decode(isDigit, Text(body + "#")) == Ok(Commit(Feed(isDigit, Start, body)))
  {
    assert (body + "#")[..|body|] == body;
  }

  // ----- Runs of presses ---------------------------------------------------

  /** The state after a run of `n` presses of digit `k`: a pending run of
      the same key is extended; otherwise whatever is pending is resolved
      and the run becomes the pending one. */
  function AfterRun(st: Scan, k: char, n: Presses): Scan {
    if st.pending.Run? && st.pending.key == k then Scan(st.out, Run(k, st.pending.presses + n))
    else Scan(Commit(st), Run(k, n))
  }

  /** n presses of a digit key, from any state, act as one run. */
  lemma {:induction false} FeedRun(isDigit: char -> bool, st: Scan, k: char, n: Presses)
    requires isDigit(k) && k != '*' && k != ' '
    ensures Feed(isDigit, st, Repeat(k, n)) == AfterRun(st, k, n)
  {
    if n == 1 {
      assert Repeat(k, 1) == [k];
      assert Feed(isDigit, st, [k]) == Feed(isDigit, Step(isDigit, st, k), []);
    } else {
      FeedRun(isDigit, st, k, n - 1);
      assert Repeat(k, n) == Repeat(k, n - 1) + [k];
      FeedSnoc(isDigit, st, Repeat(k, n - 1), k);
    }
  }

  /** A run of n presses of a single key decodes to the symbol at index
      (n - 1) mod |symbols| of that key; a digit outside the table yields
      nothing. */
  lemma SingleRun(isDigit: char -> bool, k: char, n: Presses)
    requires AgreesWithAsciiDigits(isDigit) && isDigit(k)
    ensures k in KeypadMap ==> Decode(isDigit, Text(Repeat(k, n) + "#")) == Ok([KeypadMap[k][(n - 1) % |KeypadMap[k]|]])
    ensures k !in KeypadMap ==> Decode(isDigit, Text(Repeat(k, n) + "#")) == Ok([])
  {
    ControlsAreNotDigits(isDigit);
    StripTerminator(isDigit, Repeat(k, n));
    FeedRun(isDigit, Start, k, n);
    assert [] + Resolve(k, n) == Resolve(k, n);
  }

  /** A digit different from the pending key resolves the pending run before
      starting its own. */
  lemma DifferentKeyCommits(isDigit: char -> bool, k: char, n: Presses, j: char, m: Presses)
    requires AgreesWithAsciiDigits(isDigit) && isDigit(k) && isDigit(j) && k != j
    ensures Decode(isDigit, Text(Repeat(k, n) + Repeat(j, m) + "#")) == Ok(Resolve(k, n) + Resolve(j, m))
  {
    ControlsAreNotDigits(isDigit);
    assert [] + Resolve(k, n) == Resolve(k, n);
    StripTerminator(isDigit, Repeat(k, n) + Repeat(j, m));
    FeedAppend(isDigit, Start, Repeat(k, n), Repeat(j, m));
    FeedRun(isDigit, Start, k, n);
    FeedRun(isDigit, AfterRun(Start, k, n), j, m);
  }

  /** A pause between two runs of the same key resolves them separately. */
  lemma PauseSplitsRuns(isDigit: char -> bool, k: char, n: Presses, m: Presses)
    requires AgreesWithAsciiDigits(isDigit) && isDigit(k)
    ensures Decode(isDigit, Text(Repeat(k, n) + " " + Repeat(k, m) + "#")) == Ok(Resolve(k, n) + Resolve(k, m))
  {
    ControlsAreNotDigits(isDigit);
    assert [] + Resolve(k, n) == Resolve(k, n);
    StripTerminator(isDigit, Repeat(k, n) + " " + Repeat(k, m));
    FeedAppend(isDigit, Start, Repeat(k, n) + " ", Repeat(k, m));
    FeedSnoc(isDigit, Start, Repeat(k, n), ' ');
    FeedRun(isDigit, Start, k, n);
    FeedRun(isDigit, Scan(Resolve(k, n), NoRun), k, m);
  }

  // ----- A stream as a sequence of runs --------------------------------------

  /** A run of presses of one key, a pause or a backspace. */
  datatype Token = Keys(key: char, presses: Presses) | Pause | Backspace

  /** The characters that enter one token. */
  function Chars(t: Token): string {
    match t
    case Keys(k, n) => Repeat(k, n)
    case Pause => " "
    case Backspace => "*"
  }

  /** The characters that enter a token sequence. */
  function Spell(ts: seq<Token>): string {
    if ts == [] then [] else Chars(ts[0]) + Spell(ts[1..])
  }

  /** The net effect of a token on the decoder state. A backspace right
      after a run of a mapped key cancels that run: the symbol it resolves
      to is appended and at once deleted. Otherwise it deletes the last
      character already output. */
  function Act(st: Scan, t: Token): Scan {
    match t
    case Keys(k, n) => AfterRun(st, k, n)
    case Pause => Scan(Commit(st), NoRun)
    case Backspace =>
      if st.pending.Run? && st.pending.key in KeypadMap then Scan(st.out, NoRun)
      else Scan(DropLast(st.out), NoRun)
  }

  function Play(st: Scan, ts: seq<Token>): Scan
    decreases |ts|
  {
    if ts == [] then st else Play(Act(st, ts[0]), ts[1..])
  }

  lemma {:induction false} SpellAppend(ts: seq<Token>, us: seq<Token>)
    ensures Spell(ts + us) == Spell(ts) + Spell(us)
    decreases |ts|
  {
    if ts == [] {
      assert ts + us == us;
    } else {
      assert (ts + us)[0] == ts[0] && (ts + us)[1..] == ts[1..] + us;
      SpellAppend(ts[1..], us);
    }
  }

  lemma {:induction false} PlayAppend(st: Scan, ts: seq<Token>, us: seq<Token>)
    ensures Play(st, ts + us) == Play(Play(st, ts), us)
    decreases |ts|
  {
    if ts == [] {
      assert ts + us == us;
    } else {
      assert (ts + us)[0] == ts[0] && (ts + us)[1..] == ts[1..] + us;
      PlayAppend(Act(st, ts[0]), ts[1..], us);
    }
  }

  /** Every run in the sequence presses a digit key. */
  predicate DigitRuns(isDigit: char -> bool, ts: seq<Token>) {
    forall t :: t in ts && t.Keys? ==> isDigit(t.key) && t.key != '*' && t.key != ' '
  }

  lemma FeedToken(isDigit: char -> bool, st: Scan, t: Token)
    requires t.Keys? ==> isDigit(t.key) && t.key != '*' && t.key != ' '
    ensures Feed(isDigit, st, Chars(t)) == Act(st, t)
  {
    match t
    case Keys(k, n) =>
      FeedRun(isDigit, st, k, n);
    case Pause =>
      assert Feed(isDigit, st, " ") == Feed(isDigit, Step(isDigit, st, ' '), []);
    case Backspace =>
      assert Feed(isDigit, st, "*") == Feed(isDigit, Step(isDigit, st, '*'), []);
      if st.pending.Run? && st.pending.key in KeypadMap {
        assert Commit(st) == st.out + Resolve(st.pending.key, st.pending.presses);
        assert DropLast(Commit(st)) == st.out;
      }
  }

  /** Scanning the characters of a token sequence is playing its tokens:
      each run is resolved once, when the next pause, backspace, run of
      another key or the end of the stream is reached. */
  lemma {:induction false} FeedSpell(isDigit: char -> bool, st: Scan, ts: seq<Token>)
    requires DigitRuns(isDigit, ts)
    ensures Feed(isDigit, st, Spell(ts)) == Play(st, ts)
    decreases |ts|
  {
    if ts != [] {
      assert ts[0] in ts;
      FeedAppend(isDigit, st, Chars(ts[0]), Spell(ts[1..]));
      FeedToken(isDigit, st, ts[0]);
      assert DigitRuns(isDigit, ts[1..]) by {
        forall u | u in ts[1..] ensures u in ts { }
      }
      FeedSpell(isDigit, Act(st, ts[0]), ts[1..]);
    }
  }

  /** Every run in the sequence presses one of the keys '0'..'9'. */
  predicate DigitKeys(ts: seq<Token>) {
    forall t :: t in ts && t.Keys? ==> '0' <= t.key <= '9'
  }

  /** Decoding a stream written as runs and control keys. */
  lemma DecodeRuns(isDigit: char -> bool, ts: seq<Token>)
    requires AgreesWithAsciiDigits(isDigit)
    requires DigitKeys(ts)
    ensures Decode(isDigit, Text(Spell(ts) + "#")) == Ok(Commit(Play(Start, ts)))
  {
    ControlsAreNotDigits(isDigit);
    forall t | t in ts && t.Keys? ensures isDigit(t.key) {
      assert t.key as int < 128;
    }
    StripTerminator(isDigit, Spell(ts));
    FeedSpell(isDigit, Start, ts);
  }

  // ----- Control characters anywhere in the stream -------------------------

  /** A backspace resolves what is pending and then removes the last output
      character, if any: whatever precedes it, the result is that prefix's
      own decoding minus its last character. It never fails. */
  lemma BackspaceDeletesLast(isDigit: char -> bool, w: string)
    ensures Decode(isDigit, Text(w + "*#")) == Ok(DropLast(Decode(isDigit, Text(w + "#")).value))
  {
    StripTerminator(isDigit, w);
    assert w + "*#" == (w + "*") + "#";
    StripTerminator(isDigit, w + "*");
    FeedSnoc(isDigit, Start, w, '*');
  }

  /** A pause at the end of the stream changes nothing. */
  lemma TrailingPause(isDigit: char -> bool, w: string)
    ensures Decode(isDigit, Text(w + " #")) == Decode(isDigit, Text(w + "#"))
  {
    StripTerminator(isDigit, w);
    assert w + " #" == (w + " ") + "#";
    StripTerminator(isDigit, w + " ");
    FeedSnoc(isDigit, Start, w, ' ');
  }

  /** A pause where no run is pending (at the start, after a backspace or
      after another pause) changes nothing. */
  lemma PauseWithoutRunIsNoOp(isDigit: char -> bool, w: string, v: string)
    requires Feed(isDigit, Start, w).pending.NoRun?
    ensures Decode(isDigit, Text(w + " " + v + "#")) == Decode(isDigit, Text(w + v + "#"))
  {
    StripTerminator(isDigit, w + " " + v);
    StripTerminator(isDigit, w + v);
    FeedAppend(isDigit, Start, w + " ", v);
    FeedAppend(isDigit, Start, w, v);
    FeedSnoc(isDigit, Start, w, ' ');
  }

  /** A pause right after another pause changes nothing. */
  lemma RepeatedPause(isDigit: char -> bool, w: string, v: string)
    ensures Decode(isDigit, Text(w + "  " + v + "#")) == Decode(isDigit, Text(w + " " + v + "#"))
  {
    FeedSnoc(isDigit, Start, w, ' ');
    PauseWithoutRunIsNoOp(isDigit, w + " ", v);
    assert w + "  " + v + "#" == (w + " ") + " " + v + "#";
  }

  /** A pause at the very start of the stream changes nothing. */
  lemma LeadingPause(isDigit: char -> bool, v: string)
    ensures Decode(isDigit, Text(" " + v + "#")) == Decode(isDigit, Text(v + "#"))
  {
    assert Feed(isDigit, Start, []) == Start;
    PauseWithoutRunIsNoOp(isDigit, [], v);
    assert [] + " " + v + "#" == " " + v + "#";
    assert [] + v + "#" == v + "#";
  }

  /** A pause right after a backspace changes nothing. */
  lemma PauseAfterBackspace(isDigit: char -> bool, w: string, v: string)
    ensures Decode(isDigit, Text(w + "* " + v + "#")) == Decode(isDigit, Text(w + "*" + v + "#"))
  {
    FeedSnoc(isDigit, Start, w, '*');
    PauseWithoutRunIsNoOp(isDigit, w + "*", v);
    assert w + "* " + v + "#" == (w + "*") + " " + v + "#";
  }

  /** A character that is neither a digit, a pause nor a backspace is
      skipped wherever it occurs and does not end a run (this includes a
      '#' that is not the last character). */
  lemma OtherCharacterIgnored(isDigit: char -> bool, w: string, c: char, v: string)
    requires c != '*' && c != ' ' && !isDigit(c)
    ensures Decode(isDigit, Text(w + [c] + v + "#")) == Decode(isDigit, Text(w + v + "#"))
  {
    StripTerminator(isDigit, w + [c] + v);
    StripTerminator(isDigit, w + v);
    FeedAppend(isDigit, Start, w + [c], v);
    FeedAppend(isDigit, Start, w, v);
    FeedSnoc(isDigit, Start, w, c);
  }

  // ----- Bounds on the output ----------------------------------------------

  /** The output plus one for a pending run: what the state will commit to at most. */
  function Weight(st: Scan): nat {
    |st.out| + (if st.pending.Run? then 1 else 0)
  }

  lemma {:induction false} FeedWeight(isDigit: char -> bool, st: Scan, s: string)
    ensures Weight(Feed(isDigit, st, s)) <= Weight(st) + DigitCount(isDigit, s)
    decreases |s|
  {
    if s != [] {
      FeedWeight(isDigit, Step(isDigit, st, s[0]), s[1..]);
    }
  }

  /** Every valid input decodes, to at most one character per digit pressed. */
  lemma OutputLengthBound(isDigit: char -> bool, body: string)
    ensures Decode(isDigit, Text(body + "#")).Ok?
    ensures |Decode(isDigit, Text(body + "#")).value| <= DigitCount(isDigit, body)
  {
    StripTerminator(isDigit, body);
    FeedWeight(isDigit, Start, body);
  }

  ghost predicate AllSymbols(s: string) {
    forall c :: c in s ==> IsSymbol(c)
  }

  lemma {:induction false} FeedSymbols(isDigit: char -> bool, st: Scan, s: string)
    requires AllSymbols(st.out)
    ensures AllSymbols(Feed(isDigit, st, s).out)
    ensures AllSymbols(Commit(Feed(isDigit, st, s)))
    decreases |s|
  {
    if s == [] {
      if st.pending.Run? {
        ResolveIsSymbol(st.pending.key, st.pending.presses);
      }
    } else {
      var next := Step(isDigit, st, s[0]);
      if st.pending.Run? {
        ResolveIsSymbol(st.pending.key, st.pending.presses);
      }
      var committed := Commit(st);
      assert AllSymbols(committed);
      if committed != [] {
        assert DropLast(committed) == committed[..|committed| - 1];
      }
      assert AllSymbols(next.out);
      FeedSymbols(isDigit, next, s[1..]);
    }
  }

  /** Every character of a decoded text is a symbol of the keypad table. */
  lemma OutputFromTable(isDigit: char -> bool, input: Input)
    requires Decode(isDigit, input).Ok?
    ensures AllSymbols(Decode(isDigit, input).value)
  {
    var s := input.s;
    StripTerminator(isDigit, s[..|s| - 1]);
    assert s == s[..|s| - 1] + "#";
    FeedSymbols(isDigit, Start, s[..|s| - 1]);
  }

  // ----- Typing a text and reading it back ---------------------------------

  /** A key and a 0-based position that type symbol `c`. */
  ghost function KeyFor(c: char): (kp: (char, nat))
    requires IsSymbol(c)
    ensures kp.0 in KeypadMap && kp.1 < |KeypadMap[kp.0]| && KeypadMap[kp.0][kp.1] == c
  {
    var k :| k in KeypadMap && c in KeypadMap[k];
    var i :| 0 <= i < |KeypadMap[k]| && KeypadMap[k][i] == c;
    (k, i)
  }

  /** Types a text: each symbol as the run of presses that selects it,
      followed by a pause. */
  ghost function Type(t: string): string
    requires AllSymbols(t)
  {
    if t == [] then []
    else
      var kp := KeyFor(t[0]);
      Repeat(kp.0, kp.1 + 1) + " " + Type(t[1..])
  }

  lemma {:induction false} FeedTyped(isDigit: char -> bool, out: string, t: string)
    requires AgreesWithAsciiDigits(isDigit) && AllSymbols(t)
    ensures Feed(isDigit, Scan(out, NoRun), Type(t)) == Scan(out + t, NoRun)
    decreases |t|
  {
    if t == [] {
      assert out + t == out;
    } else {
      var kp := KeyFor(t[0]);
      TableShape();
      ControlsAreNotDigits(isDigit);
      assert kp.0 as int < 128;
      var run := Repeat(kp.0, kp.1 + 1);
      FeedAppend(isDigit, Scan(out, NoRun), run + " ", Type(t[1..]));
      FeedSnoc(isDigit, Scan(out, NoRun), run, ' ');
      FeedRun(isDigit, Scan(out, NoRun), kp.0, kp.1 + 1);
      ResolveSelects(kp.0, kp.1);
      FeedTyped(isDigit, out + [t[0]], t[1..]);
      assert out + [t[0]] + t[1..] == out + t;
    }
  }

  /** Decoding a typed text, terminated by '#', gives back the text. */
  lemma TypeThenDecode(isDigit: char -> bool, t: string)
    requires AgreesWithAsciiDigits(isDigit) && AllSymbols(t)
    ensures Decode(isDigit, Text(Type(t) + "#")) == Ok(t)
  {
    StripTerminator(isDigit, Type(t));
    FeedTyped(isDigit, [], t);
    assert [] + t == t;
  }
}
