# Old phone keypad decoder

A verified Dafny model of `OldPhonePad.ConvertInput`. It decodes a multi-tap
key-press stream into text. On an old phone keypad, each digit key cycles
through a list of symbols: pressing `2` once gives `A`, twice `B`, three times
`C`, and a fourth press wraps back to `A`. A space is a pause between two runs
of the same key, `*` is a backspace and the final `#` is the send button.

The project has five modules:

- `Keypad` (keypad.dfy): the fixed key table, and the rule that turns a run of
  `n` presses of one key into the symbol at index `(n - 1) mod |symbols|`.
- `Decoder` (decoder.dfy): the reference semantics. It is a left fold (`Feed`)
  of a one-character step (`Step`) over the stream. The state is the output so
  far and the run still pending. `Decode` adds the input validation and the
  final flush.
- `OldPhonePad` (convert.dfy): the decoder as the source writes it. One `for`
  loop updates the output buffer, the buffer of pending presses and the last
  key, with `'\0'` meaning "no run". `ConvertInput` is proved to return exactly
  `Decode`'s result for every input.
- `DecoderProperties` (properties.dfy): what the decoder promises, proved about
  `Decode`. It covers runs, pauses, backspace, ignored characters, an output
  length bound, output drawn from the table, and a round trip from text to key
  presses and back. It also gives an independent token-level reading of a
  stream: runs, pauses and backspaces (`Token`, `Spell`, `Act`, `Play`). It
  proves that decoding a stream equals playing its tokens.
- `Vectors` (vectors.dfy): the end-to-end examples of the test suite as
  lemmas. The four tests whose expectations disagree with the code are stated
  with the output the code actually produces (see "Left out").

`char.IsDigit` is a parameter `isDigit` of the decoder. Every result that needs
it assumes only `AgreesWithAsciiDigits(isDigit)`: on code points below 128 it
holds exactly for `'0'`..`'9'`. Its behaviour on the rest of Unicode is left
open, and the results hold for any behaviour there.

## Model

| member | source | states |
|---|---|---|
| Keypad.TableShape | OldPhonePad.cs:15-27 | The table's keys are exactly the ten digits `'0'`..`'9'`, and each key has between one and four symbols. |
| Keypad.Resolve | OldPhonePad.cs:124-133 | A run of an unmapped key yields nothing. A run of a mapped key yields exactly one symbol, taken from that key's list. |
| Keypad.ResolveSelects | OldPhonePad.cs:127-133 | `i + 1` presses of a mapped key, for `i` below the length of its list, select exactly its `i`-th symbol. |
| Keypad.ResolveWraps | OldPhonePad.cs:130-132 | Pressing a key as many more times as it has symbols gives the same symbol again. |
| Keypad.ResolveIsSymbol | OldPhonePad.cs:127-133 | Whatever a run resolves to is a symbol of some key of the table. |
| Decoder.ControlsAreNotDigits | OldPhonePad.cs:55-93 | A digit test that agrees with ASCII never classifies `*`, space, `#` or the `'\0'` sentinel as a digit. |
| Decoder.Commit | OldPhonePad.cs:108-111 | Resolving the pending run keeps the output so far as a prefix and adds at most one character. It adds one exactly when a run of a key in the table is pending, and whatever it adds is a keypad symbol. |
| Decoder.DropLast | OldPhonePad.cs:72-73 | Empty output stays empty. Otherwise the result is the output without its last character. |
| Decoder.Decode | OldPhonePad.cs:41-51 | The result is an error exactly when the input is null, empty, or does not end in `#`. |
| Decoder.FeedAppend | OldPhonePad.cs:57-105 | Scanning a concatenation scans the first part, then the second from the state the first left. |
| Decoder.FeedSnoc | OldPhonePad.cs:57-105 | Scanning one more character is one more step. |
| OldPhonePad.AppendCharacterFromSequence | OldPhonePad.cs:122-134 | For a non-empty run, the new output is the old output followed by the run's resolution, and nothing for an unmapped key. |
| OldPhonePad.ConvertInput | OldPhonePad.cs:41-114 | The loop's result equals `Decode` of the same input, errors included. The invariant: the pending buffer is made of copies of `lastKey`, it is non-empty exactly when `lastKey != '\0'`, and the three variables stand for a reference state from which the rest of the input scans to the full scan's result. |
| DecoderProperties.StripTerminator | OldPhonePad.cs:47-113 | Decoding a body followed by `#` scans the body and commits the final state. |
| DecoderProperties.FeedRun | OldPhonePad.cs:93-104 | `n` presses of one digit key extend a pending run of the same key. A pending run of another key is committed first, and a run of `n` presses of the new key is left pending. |
| DecoderProperties.SingleRun | OldPhonePad.cs:127-133 | A stream of `n >= 1` presses of a mapped key decodes to exactly the symbol of `KeypadMap[k]` at index `(n - 1)` modulo the length of that list, and to the empty text for an unmapped digit. |
| DecoderProperties.DifferentKeyCommits | OldPhonePad.cs:96-100 | Two runs of different keys, back to back, decode to the two resolutions in order. |
| DecoderProperties.PauseSplitsRuns | OldPhonePad.cs:80-90 | Two runs of the same key separated by a space decode to two symbols, not one merged run. |
| DecoderProperties.SpellAppend | OldPhonePad.cs:57-105 | Spelling a concatenation of tokens is concatenating their spellings. |
| DecoderProperties.PlayAppend | OldPhonePad.cs:57-105 | Playing a concatenation of tokens plays the parts in order. |
| DecoderProperties.FeedToken | OldPhonePad.cs:62-104 | Scanning the characters of one token has that token's net effect. Backspace deletes the pending symbol if a mapped run is pending, and otherwise the last output character. |
| DecoderProperties.FeedSpell | OldPhonePad.cs:57-105 | Scanning the spelling of a token list of digit runs equals playing the tokens. |
| DecoderProperties.DecodeRuns | OldPhonePad.cs:41-114 | A stream written as runs of ASCII digits, pauses and backspaces, then `#`, decodes to the commit of playing its tokens. |
| DecoderProperties.BackspaceDeletesLast | OldPhonePad.cs:62-77 | Appending `*` before the terminator deletes the last character of what the stream would otherwise decode to, and never fails on empty output. |
| DecoderProperties.TrailingPause | OldPhonePad.cs:80-111 | A space just before the terminator changes nothing. |
| DecoderProperties.PauseWithoutRunIsNoOp | OldPhonePad.cs:80-90 | A space at a point of the stream where no run is pending can be removed without changing the decoded result. |
| DecoderProperties.RepeatedPause | OldPhonePad.cs:80-90 | Two consecutive spaces decode like one. |
| DecoderProperties.LeadingPause | OldPhonePad.cs:80-90 | A space at the very start of the stream changes nothing. |
| DecoderProperties.PauseAfterBackspace | OldPhonePad.cs:62-90 | A space right after a backspace changes nothing, since the backspace leaves no run pending. |
| DecoderProperties.OtherCharacterIgnored | OldPhonePad.cs:57-105 | Deleting a character that is not `*`, space or a digit anywhere in the body leaves the decoded text unchanged. This includes a `#` before the end, and such a character does not end a run. |
| DecoderProperties.FeedWeight | OldPhonePad.cs:57-105 | Scanning never increases output plus pending symbols by more than the number of digits scanned. |
| DecoderProperties.OutputLengthBound | OldPhonePad.cs:41-114 | Any body followed by `#` decodes successfully, to text no longer than the number of digit characters in the body. |
| DecoderProperties.FeedSymbols | OldPhonePad.cs:57-111 | Scanning keeps every output character a table symbol, and so does the final commit. |
| DecoderProperties.OutputFromTable | OldPhonePad.cs:41-114 | Every character of a successful result is a symbol of some key of the table. |
| DecoderProperties.FeedTyped | OldPhonePad.cs:57-105 | Typing text made of table symbols, one run and a pause per symbol, appends exactly that text to the output. |
| DecoderProperties.TypeThenDecode | OldPhonePad.cs:41-114 | Typing any text of table symbols and pressing `#` decodes back to that text. |
| Vectors.Glue | OldPhonePad.cs:57-105 | Two consecutive token pieces, each spelling its part of the stream and moving the decoder between given states, form one piece. |
| Vectors.ByRuns | OldPhonePad.cs:41-114 | Tokens that spell the input up to its terminator decode it to the commit of the state they reach. |
| Vectors.Rejected | OldPhonePadTests.cs:173-192 | A null input, `""` and `"222"` are rejected with the input error. |
| Vectors.IgnoredLetter | OldPhonePad.cs:57-105 | `"2x2#"` decodes to `"B"`: the letter is skipped and does not end the run of 2. |
| Vectors.InnerTerminator | OldPhonePad.cs:47-105 | `"2#2#"` decodes to `"B"`: only the final `#` terminates, an inner one is skipped. |
| Vectors.SingleLetter | OldPhonePadTests.cs:13-21 | `"33#"` decodes to `"E"`. |
| Vectors.BackspaceAfterRun | OldPhonePadTests.cs:23-31 | `"227*#"` decodes to `"B"`. |
| Vectors.Hello | OldPhonePadTests.cs:33-41 | `"4433555 555666#"` decodes to `"HELLO"`. |
| Vectors.Turing | OldPhonePadTests.cs:43-51 | `"8 88777444666*664#"` decodes to `"TURING"`. |
| Vectors.OnlySendButton | OldPhonePadTests.cs:57-65 | `"#"` decodes to `""`. |
| Vectors.MultipleBackspaces | OldPhonePadTests.cs:67-75 | `"222***#"` decodes to `""`. |
| Vectors.BackspaceOnEmpty | OldPhonePadTests.cs:77-85 | `"*#"` decodes to `""`. |
| Vectors.Cycling | OldPhonePadTests.cs:87-96 | `"2222#"` decodes to `"A"`. |
| Vectors.SpaceKey | OldPhonePadTests.cs:103 | `"0#"` decodes to `" "`. |
| Vectors.TwoOnce | OldPhonePadTests.cs:104 | `"2#"` decodes to `"A"`. |
| Vectors.TwoTwice | OldPhonePadTests.cs:105 | `"22#"` decodes to `"B"`. |
| Vectors.TwoThrice | OldPhonePadTests.cs:106 | `"222#"` decodes to `"C"`. |
| Vectors.ThreeOnce | OldPhonePadTests.cs:107 | `"3#"` decodes to `"D"`. |
| Vectors.ThreeThrice | OldPhonePadTests.cs:109 | `"333#"` decodes to `"F"`. |
| Vectors.SevenFourTimes | OldPhonePadTests.cs:110 | `"7777#"` decodes to `"S"`. |
| Vectors.NineFourTimes | OldPhonePadTests.cs:111 | `"9999#"` decodes to `"Z"`. |
| Vectors.OneOnce | OldPhonePadTests.cs:121-133 | `"1#"` decodes to `"&"`. |
| Vectors.OneTwice | OldPhonePadTests.cs:121-133 | `"11#"` decodes to `"'"`. |
| Vectors.OneThrice | OldPhonePadTests.cs:121-133 | `"111#"` decodes to `"("`. |
| Vectors.SpaceBetweenSameKey | OldPhonePadTests.cs:139-147 | `"222 2 22#"` decodes to `"CAB"`. |
| Vectors.MultipleSpaces | OldPhonePadTests.cs:149-157 | `"2  2#"` decodes to `"AA"`. |
| Vectors.ActualSpaceCharacter | OldPhonePadTests.cs:159-167 | `"44 444 0 9966 6#"` decodes to `"HI XNM"`, where the test expects `"HI YOU"`. |
| Vectors.LongMessage | OldPhonePadTests.cs:198-209 | `"222666 6334 4446#"` decodes to `"COMEGIM"`, where the test expects `"CODING"`. |
| Vectors.BackspaceInMiddle | OldPhonePadTests.cs:211-222 | `"222*22#"` decodes to `"B"`, where the test expects `"AB"`. |
| Vectors.MixedOperations | OldPhonePadTests.cs:224-235 | `"222 2*7777 777#"` decodes to `"CSR"`, where the test expects `"CSP"`. |

## Left out

- Program.cs: the console demo, with coloured output and an interactive read loop, is I/O around `ConvertInput` and is not part of this model.
- The digit classification: the Unicode extent of `char.IsDigit` is not modelled. `isDigit` is a parameter, fixed only on ASCII. A non-ASCII digit still starts and ends runs, and its run resolves to nothing. Every property and vector holds for any classification beyond ASCII.
- Exceptions: the source throws `ArgumentException` with a message and a parameter name. The model returns the single error value `InvalidInput`.
- The terminator check: the source's `EndsWith("#")` with a string argument is a culture-aware comparison. The model checks that the last character is `#`. These agree for the characters a keypad produces, but the model does not capture culture-specific collation of other characters.
- Characters: a C# `char` is a UTF-16 code unit, and a Dafny `char` here is a Unicode scalar value. Lone surrogates are not representable, and nothing in the decoder depends on them.
- Press-count width: the press count and the index are 32-bit `int`s in the source. The model uses unbounded integers, since a run would need more than 2^31 presses to overflow.
- OldPhonePad.AppendCharacterFromSequence: the source appends to a `StringBuilder` it receives. The model passes the output text in and returns the extended text, so the in-place update of a shared buffer is captured only as a value.
- OldPhonePad.AppendCharacterFromSequence: the model requires a non-empty run. With an empty run of a key in the table, the source computes index -1 and throws. For a key outside the table it returns without appending. No call site passes an empty run, which the loop invariant of `ConvertInput` shows.
- Four test expectations: OldPhonePadTests.cs:159-167, 198-209, 211-222 and 224-235 expect `"HI YOU"`, `"CODING"`, `"AB"` and `"CSP"`. The code as written returns `"HI XNM"`, `"COMEGIM"`, `"B"` and `"CSR"`, and the `Vectors` lemmas state those. The code is modelled as written. The tests' expectations are not encoded.
