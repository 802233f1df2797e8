# Old phone pad multi-tap decoder, modelled in Dafny

This project models the decode pipeline of the `OldPhonePad.Lib` library. The library
turns old-phone-keypad input into text. Pressing a digit key N times in a row selects
the Nth candidate of that key, wrapping round when N exceeds the number of candidates.
A space (any white space) separates two runs of the same key. `*` deletes the last
character and `#` ends the input.

The pipeline has four parts, and each is a Dafny module:

- `KeyMapping` (`key_mapping.dfy`): the fixed table from `'0'`..`'9'` to candidate strings, and `TryGetMapping`.
- `SimpleTokenizer` (`simple_tokenizer.dfy`, with the token types in `token.dfy`): classifies each character as Backspace, Send, Pause, Digit or Unknown, in that priority order. The backspace and send characters are configurable.
- `GroupResolver` (`group_resolver.dfy`): picks candidate `(presses - 1) % length` of a key.
- `OldPhonePadService` (`old_phone_pad_service.dfy`): the decode engine. It is a state machine over the tokens, holding the current run (digit and press count) and an output buffer. It exists twice. One copy is a functional fold (`Step`, `Process`, `DecodeTokens`, `Decode`). The other is the imperative loop `DecodeLoop`, proved equal to the fold.

Properties over whole token sequences are in `decode_properties.dfy`. The test suite's input/output pairs are in `decode_examples.dfy`.

The .NET predicates `char.IsWhiteSpace` and `char.IsDigit` are not modelled as Unicode tables. They are a value of type `CharInfo.CharClasses` (two total `char -> bool` functions) that the tokenizer carries. The predicate `CharInfo.AsciiFacts` fixes their ASCII behaviour as .NET defines it: white space is the space and U+0009..U+000D, and digits are `'0'`..`'9'`. Every example is proved for every classifier that satisfies `AsciiFacts`. `CharInfo.Sample` is one concrete classifier. It also accepts the Arabic-Indic digits, so it shows that a run of a digit with no table entry is reachable and gets dropped.

A C# `null` string is `Option<string>.None`. The length limit counts UTF-16 code units, as `string.Length` does (`CharInfo.Utf16Length`). The two exceptions `Decode` throws (`ArgumentNullException`, `ArgumentException` "Input too large") are the `Failure` values `ArgumentNull` and `InputTooLarge`.

Three points where the model follows the code closely:

- The length limit is a constant of 100,000 in the code, not a setting.
- On a Send the code flushes, jumps to the `Done` label and flushes again. The second flush is a no-op, and the model does both.
- The validation failures are two distinct argument exceptions rather than one validation error.

## Model

| member | source | states |
|---|---|---|
| KeyMapping.TryGetMapping | src/OldPhonePad.Lib/DefaultKeyMapping.cs:7-21 | a stand-alone model of the dictionary lookup (the resolver looks the digit up in the table it is given): lookup succeeds exactly for '0'..'9'; every found string is non-empty, with 1 candidate for '0', 4 for '7' and '9', 3 for the rest |
| KeyMapping.DefaultKeys | src/OldPhonePad.Lib/DefaultKeyMapping.cs:7-19 | the table's keys are exactly the ten ASCII digits and every entry is non-empty |
| KeyMapping.DefaultEntries | src/OldPhonePad.Lib/DefaultKeyMapping.cs:9-18 | specific entries: '1' is "&'(", '2' is "ABC", '7' is "PQRS", '9' is "WXYZ", '0' is a single space |
| CharInfo.Sample | src/OldPhonePad.Lib/SimpleTokenizer.cs:25-26 | a concrete white-space/digit classifier agrees with .NET on ASCII and accepts a non-ASCII digit that is not white space |
| CharInfo.Utf16Length | src/OldPhonePad.Lib/OldPhonePadService.cs:24 | the .NET length of a string in UTF-16 code units: between its character count and twice that, equal to the count for BMP-only text and twice it for text wholly outside the BMP |
| SimpleTokenizer.WithDefaults | src/OldPhonePad.Lib/SimpleTokenizer.cs:11-15 | the default tokenizer uses '*' for backspace and '#' for send |
| SimpleTokenizer.Classify | src/OldPhonePad.Lib/SimpleTokenizer.cs:23-27 | each token type holds exactly under its condition: backspace char first, then send char, then white space, then digit, else Unknown |
| SimpleTokenizer.TokenizeChars | src/OldPhonePad.Lib/SimpleTokenizer.cs:21-28 | one token per input character, in order, each carrying its original character and its classification |
| SimpleTokenizer.Tokenize | src/OldPhonePad.Lib/SimpleTokenizer.cs:17-19 | a null input yields no tokens; otherwise as many tokens as characters |
| SimpleTokenizer.TokenizeAppend | src/OldPhonePad.Lib/SimpleTokenizer.cs:21-28 | classification is per character, so tokenizing a concatenation concatenates the tokenizations |
| SimpleTokenizer.AsciiClassification | src/OldPhonePad.Lib/SimpleTokenizer.cs:11-27 | with the defaults, '*' is Backspace, '#' is Send, ASCII white space is Pause, '0'..'9' are Digit, any other ASCII char is Unknown |
| GroupResolver.Resolve | src/OldPhonePad.Lib/GroupResolver.cs:14-20 | a character is returned exactly when the key exists, has candidates and presses > 0; it is a candidate of that key, at index (presses-1) mod length |
| GroupResolver.ResolveFirst | src/OldPhonePad.Lib/GroupResolver.cs:18-19 | one press selects the key's first candidate |
| GroupResolver.Wraparound | src/OldPhonePad.Lib/GroupResolver.cs:18-19 | for presses >= 1, pressing length more times selects the same candidate |
| GroupResolver.WraparoundCycles | src/OldPhonePad.Lib/GroupResolver.cs:18-19 | any number of whole extra cycles selects the same candidate |
| GroupResolver.DefaultResolvesAsciiDigits | src/OldPhonePad.Lib/GroupResolver.cs:16-19 | with the default table, every ASCII digit with presses >= 1 resolves to a character |
| GroupResolver.FourPressesOnThreeLetterKey | src/OldPhonePad.Lib/GroupResolver.cs:18-19 | 4 presses of '2' give 'A'; 4 and 5 presses of the four-letter key '7' give 'S' and 'P' |
| OldPhonePadService.Flush | src/OldPhonePad.Lib/OldPhonePadService.cs:30-40 | with no run nothing changes; otherwise the run is cleared and the buffer only grows: a mapped digit with count n appends exactly its candidate at (n-1) mod length, an unmapped digit appends nothing |
| OldPhonePadService.DropLast | src/OldPhonePad.Lib/OldPhonePadService.cs:58 | a non-empty buffer loses exactly its last character; an empty one is unchanged |
| OldPhonePadService.Step | src/OldPhonePad.Lib/OldPhonePadService.cs:44-70 | keeps the run invariant; a digit token makes its digit the current run; every other token leaves no run; output plus pending run grows only on digit tokens |
| OldPhonePadService.Process | src/OldPhonePad.Lib/OldPhonePadService.cs:42-71 | the token loop keeps the run invariant and adds at most one character per digit token |
| OldPhonePadService.DecodeTokens | src/OldPhonePad.Lib/OldPhonePadService.cs:42-76 | the decoded text is no longer than the number of digit tokens |
| OldPhonePadService.Decode | src/OldPhonePad.Lib/OldPhonePadService.cs:21-77 | null is refused with ArgumentNull, a length over 100,000 UTF-16 code units with InputTooLarge, and any other input decodes to text no longer than its digit count |
| OldPhonePadService.FlushRun | src/OldPhonePad.Lib/OldPhonePadService.cs:30-40 | the imperative flush on the three locals matches Flush |
| OldPhonePadService.DecodeLoop | src/OldPhonePad.Lib/OldPhonePadService.cs:21-77 | the imperative loop, with its early exit on Send and the final flush, returns exactly what Decode specifies, including the length guard in UTF-16 code units |
| DecodeProperties.ProcessAppend | src/OldPhonePad.Lib/OldPhonePadService.cs:42-71 | before any Send, processing p then q equals processing p + q |
| DecodeProperties.ProcessAfterSend | src/OldPhonePad.Lib/OldPhonePadService.cs:62-64 | once a Send has been processed, any further tokens are ignored |
| DecodeProperties.ProcessSnoc | src/OldPhonePad.Lib/OldPhonePadService.cs:42-71 | one more token is ignored after a Send, flushes if it is a Send, and is one Step otherwise |
| DecodeProperties.FlushIdempotent | src/OldPhonePad.Lib/OldPhonePadService.cs:30-40 | flushing twice is flushing once |
| DecodeProperties.FirstSendOnly | src/OldPhonePad.Lib/OldPhonePadService.cs:62-75 | decoding p, then the first Send, then anything equals decoding p alone |
| DecodeProperties.TrailingSeparator | src/OldPhonePad.Lib/OldPhonePadService.cs:52-75 | a trailing Pause or Unknown token never changes the result: the end-of-stream flush does the same |
| DecodeProperties.RepeatedSeparator | src/OldPhonePad.Lib/OldPhonePadService.cs:52-69 | a second Pause/Unknown right after a first one changes nothing, anywhere in the input |
| DecodeProperties.UnknownActsAsPause | src/OldPhonePad.Lib/OldPhonePadService.cs:52-69 | replacing an Unknown token by a Pause token anywhere gives the same output |
| DecodeProperties.BackspaceDeletesLast | src/OldPhonePad.Lib/OldPhonePadService.cs:56-60 | before any Send, a backspace removes exactly the last character of what had been decoded so far, and leaves empty text empty |
| DecodeProperties.SameDigitIncrements | src/OldPhonePad.Lib/OldPhonePadService.cs:47-48 | the current run's digit again only increments the count; the buffer is unchanged |
| DecodeProperties.NewDigitStartsRun | src/OldPhonePad.Lib/OldPhonePadService.cs:47-49 | a different digit flushes the old run and starts a run of count 1 |
| DecodeProperties.UnmappedDigitDropped | src/OldPhonePad.Lib/OldPhonePadService.cs:34-36 | a digit token with no table entry adds no character to the decoded text |
| DecodeProperties.RunAccumulates | src/OldPhonePad.Lib/OldPhonePadService.cs:46-49 | k presses of a digit that is not the current run form a single run of count k, after flushing the old run |
| DecodeProperties.PressesDecode | src/OldPhonePad.Lib/OldPhonePadService.cs:30-49 | k >= 1 presses of an ASCII digit decode to that key's candidate at (k-1) mod length |
| DecodeProperties.OutputIsKeypadText | src/OldPhonePad.Lib/OldPhonePadService.cs:30-40 | every decoded character is a candidate of some key |
| DecodeProperties.RunInvariant | src/OldPhonePad.Lib/OldPhonePadService.cs:27-49 | the run is absent with count 0 or present with count >= 1 throughout, and absent after the final flush |
| DecodeExamples.Example33 | tests/OldPhonePad.Tests/OldPhonePadTests.cs:20 | "33#" decodes to "E" |
| DecodeExamples.Example227 | tests/OldPhonePad.Tests/OldPhonePadTests.cs:21 | "227*#" decodes to "B" |
| DecodeExamples.ExampleHello | tests/OldPhonePad.Tests/OldPhonePadTests.cs:22 | "4433555 555666#" decodes to "HELLO" |
| DecodeExamples.ExampleTuring | tests/OldPhonePad.Tests/OldPhonePadTests.cs:23 | "8 88777444666*664#" decodes to "TURING" |
| DecodeExamples.ExampleSingleKeyA | tests/OldPhonePad.Tests/OldPhonePadTests.cs:24 | "2#" decodes to "A" |
| DecodeExamples.ExampleSingleKeyC | tests/OldPhonePad.Tests/OldPhonePadTests.cs:25 | "222#" decodes to "C" |
| DecodeExamples.ExampleSpaceKey | tests/OldPhonePad.Tests/OldPhonePadTests.cs:26 | "0#" decodes to a single space |
| DecodeExamples.ExampleBackspaceOnEmpty | tests/OldPhonePad.Tests/OldPhonePadTests.cs:35-39 | "*#" decodes to empty text without failing |
| DecodeExamples.ExampleNoSend | tests/OldPhonePad.Tests/OldPhonePadTests.cs:42-46 | "22 2" decodes to "BA": the run pending at the end is flushed |
| DecodeExamples.ExampleWraparound | tests/OldPhonePad.Tests/OldPhonePadTests.cs:49-53 | "2222#" decodes to "A" |
| DecodeExamples.ExampleTwoBackspaces | tests/OldPhonePad.Tests/OldPhonePadTests.cs:64-69 | "4433555 555666**#" decodes to "HEL" |
| DecodeExamples.ExampleBackspaceAfterDigit | tests/OldPhonePad.Tests/OldPhonePadTests.cs:72-76 | "2*#" decodes to empty text |
| DecodeExamples.ExampleUnknownSeparates | tests/OldPhonePad.Tests/OldPhonePadTests.cs:79-83 | "2a2#" decodes to "AA" |
| DecodeExamples.ExampleSecondSendIgnored | tests/OldPhonePad.Tests/OldPhonePadTests.cs:86-90 | "22##" decodes to "B" |
| DecodeExamples.ExampleUnmappedDigit | src/OldPhonePad.Lib/OldPhonePadService.cs:34-36 | two Arabic-Indic zeros then "2#" decode to "A": the unmapped run is dropped and decoding goes on |
| DecodeExamples.ExampleLengthLimit | src/OldPhonePad.Lib/OldPhonePadService.cs:23-24 | exactly 100,000 UTF-16 code units are accepted, 100,001 are refused as too large, and null is refused |
| DecodeExamples.ExampleLengthLimitBmp | src/OldPhonePad.Lib/OldPhonePadService.cs:24 | 100,000 copies of '2' are accepted |
| DecodeExamples.ExampleLengthLimitSupplementary | src/OldPhonePad.Lib/OldPhonePadService.cs:24 | 50,001 copies of U+1F600 (100,002 code units) are refused as too large |

## Left out

- Logging: the `ILogger` calls on an unresolved run, on backspace and on unknown characters only produce diagnostics, and are not modelled.
- Lazy tokenization: `yield` streaming is replaced by a materialized `seq<Token>`. Classification is per character, so `SimpleTokenizer.TokenizeAppend` states that streaming in pieces gives the same tokens.
- `StringBuilder` capacity and the constructors' null-argument checks: these are runtime details with no effect on the result.
- The `IInputTokenizer`, `IGroupResolver` and `IKeyMapping` interfaces: each has one implementation. The tokenizer is a configuration value, the resolver takes its table as a `map<char, string>`, and the decode engine uses the default table.
- The Unicode tables behind `char.IsWhiteSpace` and `char.IsDigit`: only their ASCII behaviour is fixed (see `CharInfo.AsciiFacts`). `CharInfo.Sample` lists the exact .NET white-space set, but only the ASCII and Arabic-Indic digit blocks.
- The console and HTTP front ends (`src/OldPhonePad.Console/Program.cs`, `src/OldPhonePad.Api/Program.cs`): I/O that only calls `Decode`.
- SimpleTokenizer.TokenizeChars: Dafny strings are sequences of Unicode scalar values, while C# iterates UTF-16 code units. A character outside the Basic Multilingual Plane is one token here, but two Unknown tokens (one per surrogate half) in C#. For a classifier that calls such characters neither white space nor digit, as .NET does for each surrogate half, both decode alike, because a second adjacent Unknown changes nothing (`DecodeProperties.RepeatedSeparator`). A string holding a lone surrogate cannot be represented at all.
- Tokenizer configuration: the configured backspace and send characters may be any character here, while a C# `char` is one UTF-16 code unit.
- 32-bit `int` for the press count: the model uses unbounded integers. `DecodeLoop` proves that the count never exceeds the number of characters read (at most 100,000), so the C# increment cannot wrap.
- Purity and determinism of `Decode` are given by Dafny functions and are not stated as separate lemmas.
