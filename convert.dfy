/** The decoder as the source writes it: one loop over the characters that
    updates an output buffer, a buffer of pending presses and the last key
    pressed, with '\0' standing for "no pending run". The two text buffers
    are local sequences that the loop reassigns. */
module OldPhonePad {
  import opened Keypad
  import opened Decoder

  /** Appends the symbol selected by a run of presses of `key` (the run is
      `sequence`, one character per press) to `result`; a key outside the
      table appends nothing. */
  method AppendCharacterFromSequence(result: string, sequence: string, key: char)
    returns (appended: string)
    requires |sequence| >= 1
    ensures appended == result + Resolve(key, |sequence|)
  {
    if key !in KeypadMap {
      return result;
    }
    TableShape();
    var letters := KeypadMap[key];
    var pressCount := |sequence|;
    var index := (pressCount - 1) % |letters|;
    appended := result + [letters[index]];
  }

  /** The decoder state that the loop's three variables stand for. */
  function Abstract(result: string, currentSequence: string, lastKey: char): Scan {
    if |currentSequence| > 0 then Scan(result, Run(lastKey, |currentSequence|))
    else Scan(result, NoRun)
  }

  /** Converts a keypad input string into text, or reports an invalid input. */
  method ConvertInput(isDigit: char -> bool, input: Input) returns (r: Result<string>)
    requires AgreesWithAsciiDigits(isDigit)
    ensures r == Decode(isDigit, input)
  {
    if input.Null? || input.s == [] {
      return Err(InvalidInput);
    }
    var text := input.s;
    if text[|text| - 1] != '#' {
      return Err(InvalidInput);
    }
    text := text[..|text| - 1];

    var result: string := [];
    var currentSequence: string := [];
    var lastKey: char := '\0';
    assert !isDigit('\0');

    for i := 0 to |text|
      invariant forall j :: 0 <= j < |currentSequence| ==> currentSequence[j] == lastKey
      invariant |currentSequence| > 0 <==> lastKey != '\0'
      invariant Feed(isDigit, Abstract(result, currentSequence, lastKey), text[i..])
             == Feed(isDigit, Start, text)
    {
      var currentChar := text[i];
      ghost var before := Abstract(result, currentSequence, lastKey);
      assert text[i..][0] == currentChar && text[i..][1..] == text[i + 1..];

      if currentChar == '*' {
        if |currentSequence| > 0 {
          result := AppendCharacterFromSequence(result, currentSequence, lastKey);
          currentSequence := [];
        }
        assert result == Commit(before);
        if |result| > 0 {
          result := result[..|result| - 1];
        }
        assert result == DropLast(Commit(before));
        lastKey := '\0';
        assert Abstract(result, currentSequence, lastKey) == Step(isDigit, before, currentChar);
        continue;
      }

      if currentChar == ' ' {
        if |currentSequence| > 0 {
          result := AppendCharacterFromSequence(result, currentSequence, lastKey);
          currentSequence := [];
        }
        assert result == Commit(before);
        lastKey := '\0';
        assert Abstract(result, currentSequence, lastKey) == Step(isDigit, before, currentChar);
        continue;
      }

      if isDigit(currentChar) {
        if lastKey != '\0' && lastKey != currentChar {
          result := AppendCharacterFromSequence(result, currentSequence, lastKey);
          currentSequence := [];
          assert result == Commit(before);
        }
        currentSequence := currentSequence + [currentChar];
        lastKey := currentChar;
      }
      assert Abstract(result, currentSequence, lastKey) == Step(isDigit, before, currentChar);
    }

    if |currentSequence| > 0 {
      result := AppendCharacterFromSequence(result, currentSequence, lastKey);
    }
    return Ok(result);
  }
}
