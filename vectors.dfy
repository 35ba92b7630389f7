/** Concrete key-press streams and what the decoder makes of them. Each
    holds for every digit classification that agrees with '0'..'9' on ASCII.
    A stream is cut into runs, pauses and backspaces; each piece is checked
    on its own against the decoder state it starts and ends in, and the
    pieces are glued together. */
module Vectors {
  import opened Keypad
  import opened Decoder
  import opened DecoderProperties

  /** Two consecutive pieces of a stream form one: the first spells the
      part of `whole` before `r1` and takes the decoder from `s0` to `s1`,
      the second spells the part of `r1` before `r2` and takes it on to `s2`. */
  lemma Glue(ts: seq<Token>, us: seq<Token>, s0: Scan, s1: Scan, s2: Scan, whole: string, r1: string, r2: string)
    requires DigitKeys(ts) && Spell(ts) + r1 == whole
    requires Play(s0, ts) == s1
    requires DigitKeys(us) && Spell(us) + r2 == r1
    requires Play(s1, us) == s2
    ensures DigitKeys(ts + us) && Spell(ts + us) + r2 == whole
    ensures Play(s0, ts + us) == s2
  {
    SpellAppend(ts, us);
    Regroup(Spell(ts), Spell(us), r2);
    PlayAppend(s0, ts, us);
  }

  /** Regrouping a concatenation of three texts. */
  lemma Regroup(a: string, b: string, c: string)
    ensures (a + b) + c == a + (b + c)
  {
  }

  /** A stream that spells the input up to its terminator decodes to the
      commit of the state that playing it from the start reaches. */
  lemma ByRuns(isDigit: char -> bool, ts: seq<Token>, input: string, out: string)
    requires AgreesWithAsciiDigits(isDigit)
    requires DigitKeys(ts) && Spell(ts) + "#" == input
    requires Commit(Play(Start, ts)) == out
    ensures Decode(isDigit, Text(input)) == Ok(out)
  {
    DecodeRuns(isDigit, ts);
  }

  /** A missing input, an empty one and one without the terminator are
      rejected (OldPhonePadTests.cs:173-192). */
  lemma Rejected(isDigit: char -> bool)
    ensures Decode(isDigit, Null) == Err(InvalidInput)
    ensures Decode(isDigit, Text("")) == Err(InvalidInput)
    ensures Decode(isDigit, Text("222")) == Err(InvalidInput)
  {
  }

  /** Two presses of 3 give its second symbol (OldPhonePadTests.cs:13-21). */
  lemma SingleLetter(isDigit: char -> bool)
    requires AgreesWithAsciiDigits(isDigit)
    ensures Decode(isDigit, Text("33#")) == Ok("E")
  {
    ByRuns(isDigit, [Keys('3', 2)], "33#", "E");
  }

  /** The backspace first resolves the pending 7, then deletes it (OldPhonePadTests.cs:23-31). */
  lemma BackspaceAfterRun(isDigit: char -> bool)
    requires AgreesWithAsciiDigits(isDigit)
    ensures Decode(isDigit, Text("227*#")) == Ok("B")
  {
    ByRuns(isDigit, [Keys('2', 2), Keys('7', 1), Backspace], "227*#", "B");
  }

  lemma HelloPart1() returns (ts: seq<Token>)
    ensures DigitKeys(ts) && Spell(ts) + "555 555666#" == "4433555 555666#"
    ensures Play(Scan("", NoRun), ts) == Scan("H", Run('3', 2))
  {
    ts := [Keys('4', 2), Keys('3', 2)];
  }
  lemma HelloPart2() returns (ts: seq<Token>)
    ensures DigitKeys(ts) && Spell(ts) + "555666#" == "555 555666#"
    ensures Play(Scan("H", Run('3', 2)), ts) == Scan("HEL", NoRun)
  {
    ts := [Keys('5', 3), Pause];
  }
  lemma HelloPart3() returns (ts: seq<Token>)
    ensures DigitKeys(ts) && Spell(ts) + "#" == "555666#"
    ensures Play(Scan("HEL", NoRun), ts) == Scan("HELL", Run('6', 3))
    ensures Commit(Play(Scan("HEL", NoRun), ts)) == "HELLO"
  {
    ts := [Keys('5', 3), Keys('6', 3)];
  }
  lemma HelloRuns() returns (ts: seq<Token>)
    ensures DigitKeys(ts) && Spell(ts) + "#" == "4433555 555666#"
    ensures Commit(Play(Start, ts)) == "HELLO"
  {
    var ts1 := HelloPart1();
    var ts2 := HelloPart2();
    var ts3 := HelloPart3();
    Glue(ts1, ts2, Start, Scan("H", Run('3', 2)), Scan("HEL", NoRun), "4433555 555666#", "555 555666#", "555666#");
    Glue(ts1 + ts2, ts3, Start, Scan("HEL", NoRun), Scan("HELL", Run('6', 3)), "4433555 555666#", "555666#", "#");
    ts := ts1 + ts2 + ts3;
  }
  /** A pause separates two runs of 5 (OldPhonePadTests.cs:33-41). */
  lemma Hello(isDigit: char -> bool)
    requires AgreesWithAsciiDigits(isDigit)
    ensures Decode(isDigit, Text("4433555 555666#")) == Ok("HELLO")
  {
    var ts := HelloRuns();
    ByRuns(isDigit, ts, "4433555 555666#", "HELLO");
  }

  lemma TuringPart1() returns (ts: seq<Token>)
    ensures DigitKeys(ts) && Spell(ts) + "88777444666*664#" == "8 88777444666*664#"
    ensures Play(Scan("", NoRun), ts) == Scan("T", NoRun)
  {
    ts := [Keys('8', 1), Pause];
  }
  lemma TuringPart2() returns (ts: seq<Token>)
    ensures DigitKeys(ts) && Spell(ts) + "444666*664#" == "88777444666*664#"
    ensures Play(Scan("T", NoRun), ts) == Scan("TU", Run('7', 3))
  {
    ts := [Keys('8', 2), Keys('7', 3)];
  }
  lemma TuringPart3() returns (ts: seq<Token>)
    ensures DigitKeys(ts) && Spell(ts) + "*664#" == "444666*664#"
    ensures Play(Scan("TU", Run('7', 3)), ts) == Scan("TURI", Run('6', 3))
  {
    ts := [Keys('4', 3), Keys('6', 3)];
  }
  lemma TuringPart4() returns (ts: seq<Token>)
    ensures DigitKeys(ts) && Spell(ts) + "4#" == "*664#"
    ensures Play(Scan("TURI", Run('6', 3)), ts) == Scan("TURI", Run('6', 2))
  {
    ts := [Backspace, Keys('6', 2)];
  }
  lemma TuringPart5() returns (ts: seq<Token>)
    ensures DigitKeys(ts) && Spell(ts) + "#" == "4#"
    ensures Play(Scan("TURI", Run('6', 2)), ts) == Scan("TURIN", Run('4', 1))
    ensures Commit(Play(Scan("TURI", Run('6', 2)), ts)) == "TURING"
  {
    ts := [Keys('4', 1)];
  }
  lemma TuringRuns() returns (ts: seq<Token>)
    ensures DigitKeys(ts) && Spell(ts) + "#" == "8 88777444666*664#"
    ensures Commit(Play(Start, ts)) == "TURING"
  {
    var ts1 := TuringPart1();
    var ts2 := TuringPart2();
    var ts3 := TuringPart3();
    var ts4 := TuringPart4();
    var ts5 := TuringPart5();
    Glue(ts1, ts2, Start, Scan("T", NoRun), Scan("TU", Run('7', 3)), "8 88777444666*664#", "88777444666*664#", "444666*664#");
    Glue(ts1 + ts2, ts3, Start, Scan("TU", Run('7', 3)), Scan("TURI", Run('6', 3)), "8 88777444666*664#", "444666*664#", "*664#");
    Glue(ts1 + ts2 + ts3, ts4, Start, Scan("TURI", Run('6', 3)), Scan("TURI", Run('6', 2)), "8 88777444666*664#", "*664#", "4#");
    Glue(ts1 + ts2 + ts3 + ts4, ts5, Start, Scan("TURI", Run('6', 2)), Scan("TURIN", Run('4', 1)), "8 88777444666*664#", "4#", "#");
    ts := ts1 + ts2 + ts3 + ts4 + ts5;
  }
  /** Pauses, runs of different keys and a backspace together (OldPhonePadTests.cs:43-51). */
  lemma Turing(isDigit: char -> bool)
    requires AgreesWithAsciiDigits(isDigit)
    ensures Decode(isDigit, Text("8 88777444666*664#")) == Ok("TURING")
  {
    var ts := TuringRuns();
    ByRuns(isDigit, ts, "8 88777444666*664#", "TURING");
  }

  /** The terminator alone decodes to the empty text (OldPhonePadTests.cs:57-65). */
  lemma OnlySendButton(isDigit: char -> bool)
    requires AgreesWithAsciiDigits(isDigit)
    ensures Decode(isDigit, Text("#")) == Ok("")
  {
    ByRuns(isDigit, [], "#", "");
  }

  lemma MultipleBackspacesPart1() returns (ts: seq<Token>)
    ensures DigitKeys(ts) && Spell(ts) + "**#" == "222***#"
    ensures Play(Scan("", NoRun), ts) == Scan("", NoRun)
  {
    ts := [Keys('2', 3), Backspace];
  }
  lemma MultipleBackspacesPart2() returns (ts: seq<Token>)
    ensures DigitKeys(ts) && Spell(ts) + "#" == "**#"
    ensures Play(Scan("", NoRun), ts) == Scan("", NoRun)
    ensures Commit(Play(Scan("", NoRun), ts)) == ""
  {
    ts := [Backspace, Backspace];
  }
  lemma MultipleBackspacesRuns() returns (ts: seq<Token>)
    ensures DigitKeys(ts) && Spell(ts) + "#" == "222***#"
    ensures Commit(Play(Start, ts)) == ""
  {
    var ts1 := MultipleBackspacesPart1();
    var ts2 := MultipleBackspacesPart2();
    Glue(ts1, ts2, Start, Scan("", NoRun), Scan("", NoRun), "222***#", "**#", "#");
    ts := ts1 + ts2;
  }
  /** Backspaces beyond the output leave it empty (OldPhonePadTests.cs:67-75). */
  lemma MultipleBackspaces(isDigit: char -> bool)
    requires AgreesWithAsciiDigits(isDigit)
    ensures Decode(isDigit, Text("222***#")) == Ok("")
  {
    var ts := MultipleBackspacesRuns();
    ByRuns(isDigit, ts, "222***#", "");
  }

  /** A backspace on empty output is not an error (OldPhonePadTests.cs:77-85). */
  lemma BackspaceOnEmpty(isDigit: char -> bool)
    requires AgreesWithAsciiDigits(isDigit)
    ensures Decode(isDigit, Text("*#")) == Ok("")
  {
    ByRuns(isDigit, [Backspace], "*#", "");
  }

  /** Four presses of a three-symbol key wrap to the first (OldPhonePadTests.cs:87-96). */
  lemma Cycling(isDigit: char -> bool)
    requires AgreesWithAsciiDigits(isDigit)
    ensures Decode(isDigit, Text("2222#")) == Ok("A")
  {
    ByRuns(isDigit, [Keys('2', 4)], "2222#", "A");
  }

  lemma SpaceBetweenSameKeyPart1() returns (ts: seq<Token>)
    ensures DigitKeys(ts) && Spell(ts) + "2 22#" == "222 2 22#"
    ensures Play(Scan("", NoRun), ts) == Scan("C", NoRun)
  {
    ts := [Keys('2', 3), Pause];
  }
  lemma SpaceBetweenSameKeyPart2() returns (ts: seq<Token>)
    ensures DigitKeys(ts) && Spell(ts) + "22#" == "2 22#"
    ensures Play(Scan("C", NoRun), ts) == Scan("CA", NoRun)
  {
    ts := [Keys('2', 1), Pause];
  }
  lemma SpaceBetweenSameKeyPart3() returns (ts: seq<Token>)
    ensures DigitKeys(ts) && Spell(ts) + "#" == "22#"
    ensures Play(Scan("CA", NoRun), ts) == Scan("CA", Run('2', 2))
    ensures Commit(Play(Scan("CA", NoRun), ts)) == "CAB"
  {
    ts := [Keys('2', 2)];
  }
  lemma SpaceBetweenSameKeyRuns() returns (ts: seq<Token>)
    ensures DigitKeys(ts) && Spell(ts) + "#" == "222 2 22#"
    ensures Commit(Play(Start, ts)) == "CAB"
  {
    var ts1 := SpaceBetweenSameKeyPart1();
    var ts2 := SpaceBetweenSameKeyPart2();
    var ts3 := SpaceBetweenSameKeyPart3();
    Glue(ts1, ts2, Start, Scan("C", NoRun), Scan("CA", NoRun), "222 2 22#", "2 22#", "22#");
    Glue(ts1 + ts2, ts3, Start, Scan("CA", NoRun), Scan("CA", Run('2', 2)), "222 2 22#", "22#", "#");
    ts := ts1 + ts2 + ts3;
  }
  /** Pauses let one key type three symbols in a row (OldPhonePadTests.cs:139-147). */
  lemma SpaceBetweenSameKey(isDigit: char -> bool)
    requires AgreesWithAsciiDigits(isDigit)
    ensures Decode(isDigit, Text("222 2 22#")) == Ok("CAB")
  {
    var ts := SpaceBetweenSameKeyRuns();
    ByRuns(isDigit, ts, "222 2 22#", "CAB");
  }

  lemma MultipleSpacesPart1() returns (ts: seq<Token>)
    ensures DigitKeys(ts) && Spell(ts) + " 2#" == "2  2#"
    ensures Play(Scan("", NoRun), ts) == Scan("A", NoRun)
  {
    ts := [Keys('2', 1), Pause];
  }
  lemma MultipleSpacesPart2() returns (ts: seq<Token>)
    ensures DigitKeys(ts) && Spell(ts) + "#" == " 2#"
    ensures Play(Scan("A", NoRun), ts) == Scan("A", Run('2', 1))
    ensures Commit(Play(Scan("A", NoRun), ts)) == "AA"
  {
    ts := [Pause, Keys('2', 1)];
  }
  lemma MultipleSpacesRuns() returns (ts: seq<Token>)
    ensures DigitKeys(ts) && Spell(ts) + "#" == "2  2#"
    ensures Commit(Play(Start, ts)) == "AA"
  {
    var ts1 := MultipleSpacesPart1();
    var ts2 := MultipleSpacesPart2();
    Glue(ts1, ts2, Start, Scan("A", NoRun), Scan("A", Run('2', 1)), "2  2#", " 2#", "#");
    ts := ts1 + ts2;
  }
  /** Consecutive pauses collapse (OldPhonePadTests.cs:149-157). */
  lemma MultipleSpaces(isDigit: char -> bool)
    requires AgreesWithAsciiDigits(isDigit)
    ensures Decode(isDigit, Text("2  2#")) == Ok("AA")
  {
    var ts := MultipleSpacesRuns();
    ByRuns(isDigit, ts, "2  2#", "AA");
  }

  lemma ActualSpaceCharacterPart1() returns (ts: seq<Token>)
    ensures DigitKeys(ts) && Spell(ts) + "444 0 9966 6#" == "44 444 0 9966 6#"
    ensures Play(Scan("", NoRun), ts) == Scan("H", NoRun)
  {
    ts := [Keys('4', 2), Pause];
  }
  lemma ActualSpaceCharacterPart2() returns (ts: seq<Token>)
    ensures DigitKeys(ts) && Spell(ts) + "0 9966 6#" == "444 0 9966 6#"
    ensures Play(Scan("H", NoRun), ts) == Scan("HI", NoRun)
  {
    ts := [Keys('4', 3), Pause];
  }
  lemma ActualSpaceCharacterPart3() returns (ts: seq<Token>)
    ensures DigitKeys(ts) && Spell(ts) + "9966 6#" == "0 9966 6#"
    ensures Play(Scan("HI", NoRun), ts) == Scan("HI ", NoRun)
  {
    ts := [Keys('0', 1), Pause];
  }
  lemma ActualSpaceCharacterPart4() returns (ts: seq<Token>)
    ensures DigitKeys(ts) && Spell(ts) + " 6#" == "9966 6#"
    ensures Play(Scan("HI ", NoRun), ts) == Scan("HI X", Run('6', 2))
  {
    ts := [Keys('9', 2), Keys('6', 2)];
  }
  lemma ActualSpaceCharacterPart5() returns (ts: seq<Token>)
    ensures DigitKeys(ts) && Spell(ts) + "#" == " 6#"
    ensures Play(Scan("HI X", Run('6', 2)), ts) == Scan("HI XN", Run('6', 1))
    ensures Commit(Play(Scan("HI X", Run('6', 2)), ts)) == "HI XNM"
  {
    ts := [Pause, Keys('6', 1)];
  }
  lemma ActualSpaceCharacterRuns() returns (ts: seq<Token>)
    ensures DigitKeys(ts) && Spell(ts) + "#" == "44 444 0 9966 6#"
    ensures Commit(Play(Start, ts)) == "HI XNM"
  {
    var ts1 := ActualSpaceCharacterPart1();
    var ts2 := ActualSpaceCharacterPart2();
    var ts3 := ActualSpaceCharacterPart3();
    var ts4 := ActualSpaceCharacterPart4();
    var ts5 := ActualSpaceCharacterPart5();
    Glue(ts1, ts2, Start, Scan("H", NoRun), Scan("HI", NoRun), "44 444 0 9966 6#", "444 0 9966 6#", "0 9966 6#");
    Glue(ts1 + ts2, ts3, Start, Scan("HI", NoRun), Scan("HI ", NoRun), "44 444 0 9966 6#", "0 9966 6#", "9966 6#");
    Glue(ts1 + ts2 + ts3, ts4, Start, Scan("HI ", NoRun), Scan("HI X", Run('6', 2)), "44 444 0 9966 6#", "9966 6#", " 6#");
    Glue(ts1 + ts2 + ts3 + ts4, ts5, Start, Scan("HI X", Run('6', 2)), Scan("HI XN", Run('6', 1)), "44 444 0 9966 6#", " 6#", "#");
    ts := ts1 + ts2 + ts3 + ts4 + ts5;
  }
  /** The input of OldPhonePadTests.cs:159-167 decodes to "HI XNM", not the "HI YOU" that test expects. */
  lemma ActualSpaceCharacter(isDigit: char -> bool)
    requires AgreesWithAsciiDigits(isDigit)
    ensures Decode(isDigit, Text("44 444 0 9966 6#")) == Ok("HI XNM")
  {
    var ts := ActualSpaceCharacterRuns();
    ByRuns(isDigit, ts, "44 444 0 9966 6#", "HI XNM");
  }

  lemma LongMessagePart1() returns (ts: seq<Token>)
    ensures DigitKeys(ts) && Spell(ts) + " 6334 4446#" == "222666 6334 4446#"
    ensures Play(Scan("", NoRun), ts) == Scan("C", Run('6', 3))
  {
    ts := [Keys('2', 3), Keys('6', 3)];
  }
  lemma LongMessagePart2() returns (ts: seq<Token>)
    ensures DigitKeys(ts) && Spell(ts) + "334 4446#" == " 6334 4446#"
    ensures Play(Scan("C", Run('6', 3)), ts) == Scan("CO", Run('6', 1))
  {
    ts := [Pause, Keys('6', 1)];
  }
  lemma LongMessagePart3() returns (ts: seq<Token>)
    ensures DigitKeys(ts) && Spell(ts) + " 4446#" == "334 4446#"
    ensures Play(Scan("CO", Run('6', 1)), ts) == Scan("COME", Run('4', 1))
  {
    ts := [Keys('3', 2), Keys('4', 1)];
  }
  lemma LongMessagePart4() returns (ts: seq<Token>)
    ensures DigitKeys(ts) && Spell(ts) + "6#" == " 4446#"
    ensures Play(Scan("COME", Run('4', 1)), ts) == Scan("COMEG", Run('4', 3))
  {
    ts := [Pause, Keys('4', 3)];
  }
  lemma LongMessagePart5() returns (ts: seq<Token>)
    ensures DigitKeys(ts) && Spell(ts) + "#" == "6#"
    ensures Play(Scan("COMEG", Run('4', 3)), ts) == Scan("COMEGI", Run('6', 1))
    ensures Commit(Play(Scan("COMEG", Run('4', 3)), ts)) == "COMEGIM"
  {
    ts := [Keys('6', 1)];
  }
  lemma LongMessageRuns() returns (ts: seq<Token>)
    ensures DigitKeys(ts) && Spell(ts) + "#" == "222666 6334 4446#"
    ensures Commit(Play(Start, ts)) == "COMEGIM"
  {
    var ts1 := LongMessagePart1();
    var ts2 := LongMessagePart2();
    var ts3 := LongMessagePart3();
    var ts4 := LongMessagePart4();
    var ts5 := LongMessagePart5();
    Glue(ts1, ts2, Start, Scan("C", Run('6', 3)), Scan("CO", Run('6', 1)), "222666 6334 4446#", " 6334 4446#", "334 4446#");
    Glue(ts1 + ts2, ts3, Start, Scan("CO", Run('6', 1)), Scan("COME", Run('4', 1)), "222666 6334 4446#", "334 4446#", " 4446#");
    Glue(ts1 + ts2 + ts3, ts4, Start, Scan("COME", Run('4', 1)), Scan("COMEG", Run('4', 3)), "222666 6334 4446#", " 4446#", "6#");
    Glue(ts1 + ts2 + ts3 + ts4, ts5, Start, Scan("COMEG", Run('4', 3)), Scan("COMEGI", Run('6', 1)), "222666 6334 4446#", "6#", "#");
    ts := ts1 + ts2 + ts3 + ts4 + ts5;
  }
  /** The input of OldPhonePadTests.cs:198-209 decodes to "COMEGIM", not the "CODING" that test expects. */
  lemma LongMessage(isDigit: char -> bool)
    requires AgreesWithAsciiDigits(isDigit)
    ensures Decode(isDigit, Text("222666 6334 4446#")) == Ok("COMEGIM")
  {
    var ts := LongMessageRuns();
    ByRuns(isDigit, ts, "222666 6334 4446#", "COMEGIM");
  }

  /** The input of OldPhonePadTests.cs:211-222 decodes to "B", not the "AB" that test expects. */
  lemma BackspaceInMiddle(isDigit: char -> bool)
    requires AgreesWithAsciiDigits(isDigit)
    ensures Decode(isDigit, Text("222*22#")) == Ok("B")
  {
    ByRuns(isDigit, [Keys('2', 3), Backspace, Keys('2', 2)], "222*22#", "B");
  }

  lemma MixedOperationsPart1() returns (ts: seq<Token>)
    ensures DigitKeys(ts) && Spell(ts) + "2*7777 777#" == "222 2*7777 777#"
    ensures Play(Scan("", NoRun), ts) == Scan("C", NoRun)
  {
    ts := [Keys('2', 3), Pause];
  }
  lemma MixedOperationsPart2() returns (ts: seq<Token>)
    ensures DigitKeys(ts) && Spell(ts) + "7777 777#" == "2*7777 777#"
    ensures Play(Scan("C", NoRun), ts) == Scan("C", NoRun)
  {
    ts := [Keys('2', 1), Backspace];
  }
  lemma MixedOperationsPart3() returns (ts: seq<Token>)
    ensures DigitKeys(ts) && Spell(ts) + "777#" == "7777 777#"
    ensures Play(Scan("C", NoRun), ts) == Scan("CS", NoRun)
  {
    ts := [Keys('7', 4), Pause];
  }
  lemma MixedOperationsPart4() returns (ts: seq<Token>)
    ensures DigitKeys(ts) && Spell(ts) + "#" == "777#"
    ensures Play(Scan("CS", NoRun), ts) == Scan("CS", Run('7', 3))
    ensures Commit(Play(Scan("CS", NoRun), ts)) == "CSR"
  {
    ts := [Keys('7', 3)];
  }
  lemma MixedOperationsRuns() returns (ts: seq<Token>)
    ensures DigitKeys(ts) && Spell(ts) + "#" == "222 2*7777 777#"
    ensures Commit(Play(Start, ts)) == "CSR"
  {
    var ts1 := MixedOperationsPart1();
    var ts2 := MixedOperationsPart2();
    var ts3 := MixedOperationsPart3();
    var ts4 := MixedOperationsPart4();
    Glue(ts1, ts2, Start, Scan("C", NoRun), Scan("C", NoRun), "222 2*7777 777#", "2*7777 777#", "7777 777#");
    Glue(ts1 + ts2, ts3, Start, Scan("C", NoRun), Scan("CS", NoRun), "222 2*7777 777#", "7777 777#", "777#");
    Glue(ts1 + ts2 + ts3, ts4, Start, Scan("CS", NoRun), Scan("CS", Run('7', 3)), "222 2*7777 777#", "777#", "#");
    ts := ts1 + ts2 + ts3 + ts4;
  }
  /** The input of OldPhonePadTests.cs:224-235 decodes to "CSR", not the "CSP" that test expects. */
  lemma MixedOperations(isDigit: char -> bool)
    requires AgreesWithAsciiDigits(isDigit)
    ensures Decode(isDigit, Text("222 2*7777 777#")) == Ok("CSR")
  {
    var ts := MixedOperationsRuns();
    ByRuns(isDigit, ts, "222 2*7777 777#", "CSR");
  }

  /** Key 0 types a space (OldPhonePadTests.cs:102-111). */
  lemma SpaceKey(isDigit: char -> bool)
    requires AgreesWithAsciiDigits(isDigit)
    ensures Decode(isDigit, Text("0#")) == Ok(" ")
  {
    ByRuns(isDigit, [Keys('0', 1)], "0#", " ");
  }

  /** One press of 2 types its first symbol (OldPhonePadTests.cs:102-111). */
  lemma TwoOnce(isDigit: char -> bool)
    requires AgreesWithAsciiDigits(isDigit)
    ensures Decode(isDigit, Text("2#")) == Ok("A")
  {
    ByRuns(isDigit, [Keys('2', 1)], "2#", "A");
  }

  /** Two presses of 2 type its second symbol (OldPhonePadTests.cs:102-111). */
  lemma TwoTwice(isDigit: char -> bool)
    requires AgreesWithAsciiDigits(isDigit)
    ensures Decode(isDigit, Text("22#")) == Ok("B")
  {
    ByRuns(isDigit, [Keys('2', 2)], "22#", "B");
  }

  /** Three presses of 2 type its third symbol (OldPhonePadTests.cs:102-111). */
  lemma TwoThrice(isDigit: char -> bool)
    requires AgreesWithAsciiDigits(isDigit)
    ensures Decode(isDigit, Text("222#")) == Ok("C")
  {
    ByRuns(isDigit, [Keys('2', 3)], "222#", "C");
  }

  /** One press of 3 types its first symbol (OldPhonePadTests.cs:102-111). */
  lemma ThreeOnce(isDigit: char -> bool)
    requires AgreesWithAsciiDigits(isDigit)
    ensures Decode(isDigit, Text("3#")) == Ok("D")
  {
    ByRuns(isDigit, [Keys('3', 1)], "3#", "D");
  }

  /** Three presses of 3 type its third symbol (OldPhonePadTests.cs:102-111). */
  lemma ThreeThrice(isDigit: char -> bool)
    requires AgreesWithAsciiDigits(isDigit)
    ensures Decode(isDigit, Text("333#")) == Ok("F")
  {
    ByRuns(isDigit, [Keys('3', 3)], "333#", "F");
  }

  /** Four presses of a four-symbol key type its last symbol (OldPhonePadTests.cs:102-111). */
  lemma SevenFourTimes(isDigit: char -> bool)
    requires AgreesWithAsciiDigits(isDigit)
    ensures Decode(isDigit, Text("7777#")) == Ok("S")
  {
    ByRuns(isDigit, [Keys('7', 4)], "7777#", "S");
  }

  /** Four presses of 9 type its last symbol (OldPhonePadTests.cs:102-111). */
  lemma NineFourTimes(isDigit: char -> bool)
    requires AgreesWithAsciiDigits(isDigit)
    ensures Decode(isDigit, Text("9999#")) == Ok("Z")
  {
    ByRuns(isDigit, [Keys('9', 4)], "9999#", "Z");
  }

  /** One press of 1 types an ampersand (OldPhonePadTests.cs:121-133). */
  lemma OneOnce(isDigit: char -> bool)
    requires AgreesWithAsciiDigits(isDigit)
    ensures Decode(isDigit, Text("1#")) == Ok("&")
  {
    ByRuns(isDigit, [Keys('1', 1)], "1#", "&");
  }

  /** Two presses of 1 type an apostrophe (OldPhonePadTests.cs:121-133). */
  lemma OneTwice(isDigit: char -> bool)
    requires AgreesWithAsciiDigits(isDigit)
    ensures Decode(isDigit, Text("11#")) == Ok("\'")
  {
    ByRuns(isDigit, [Keys('1', 2)], "11#", "\'");
  }

  /** Three presses of 1 type a left parenthesis (OldPhonePadTests.cs:121-133). */
  lemma OneThrice(isDigit: char -> bool)
    requires AgreesWithAsciiDigits(isDigit)
    ensures Decode(isDigit, Text("111#")) == Ok("(")
  {
    ByRuns(isDigit, [Keys('1', 3)], "111#", "(");
  }

  /** A letter between two presses of 2 is skipped and does not end the
      run around it. */
  lemma IgnoredLetter(isDigit: char -> bool)
    requires AgreesWithAsciiDigits(isDigit)
    ensures Decode(isDigit, Text("2x2#")) == Ok("B")
  {
    assert 'x' as int < 128;
    OtherCharacterIgnored(isDigit, "2", 'x', "2");
    assert "2" + ['x'] + "2" + "#" == "2x2#" && "2" + "2" + "#" == "22#";
    TwoTwice(isDigit);
  }

  /** So is a '#' before the final one. */
  lemma InnerTerminator(isDigit: char -> bool)
    requires AgreesWithAsciiDigits(isDigit)
    ensures Decode(isDigit, Text("2#2#")) == Ok("B")
  {
    assert '#' as int < 128;
    OtherCharacterIgnored(isDigit, "2", '#', "2");
    assert "2" + ['#'] + "2" + "#" == "2#2#" && "2" + "2" + "#" == "22#";
    TwoTwice(isDigit);
  }
}
