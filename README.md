# Access key ("Chave de Acesso") codec

A Dafny model of the library that builds and reads the 44-character access key of
Brazilian electronic fiscal documents (NF-e, NFC-e, CT-e, MDF-e). A key is made of:

- a 43-character base: state (2 characters), issue period `yyMM` (4), issuer CNPJ (14),
  model (2), series (3), number (9), issue mode (1) and numeric code (8);
- one check digit, computed by a weighted modulo-11 sum over the base. Weights run
  2..9 cyclically from the right. Every character counts as its code minus the code
  of `'0'`, so the letters of an alphanumeric CNPJ count as 17..42.

The model has these modules, one per Java class, plus a few helpers:

- `Errors`: the failure kinds, each exception of the Java code as a variant. It also
  has `Result` and `Option`.
- `Decimal`: what the Java code uses of `String.format("%0Nd")`, `String.valueOf` and
  `Integer.parseInt`.
- `Series`, `Number`, `Code`: newtypes whose constraint is the range checked by
  `validate`. Each has a `New` that reports the same failures in the same order.
- `State`, `Model`, `IssueMode`: the closed code tables, a linear lookup, and the
  lookup from text with its separate "not numeric" failure.
- `Period`: the `yyMM` year-month, standing in for `java.time.YearMonth`.
- `AccessKeyGenerator`: the check digit. It is a specification function, `CheckDigit`,
  and the loop of `calcModulo112`, `CalcModulo11`, is proved equal to it.
- `AccessKey`: the record, its all-fields-required constructor, `generate` and `from`.
- `AccessKeyExamples`: the keys of the unit tests, worked through the model.

The issuer's CNPJ is a 14-character `[A-Z0-9]` value. Whether the CNPJ library accepts
it is a parameter, `accepts: string -> bool`, of the operations that read one.

## Model

| member | source | states |
|---|---|---|
| Series.New | src/main/java/io/github/robsonkades/accesskey/Series.java:35-71 | succeeds exactly for 0..999, with that value; a negative code is refused as negative before the upper bound is checked; 1000 and above are refused as too large |
| Series.Series.CodeAsString | src/main/java/io/github/robsonkades/accesskey/Series.java:54-56 | the rendering is exactly three decimal digits |
| Series.TextRoundTrip | src/main/java/io/github/robsonkades/accesskey/Series.java:54-56 | `Integer.parseInt` of the rendering gives back the code, and the constructor accepts it again |
| Series.CanonicalText | src/main/java/io/github/robsonkades/accesskey/Series.java:54-56 | every three-digit text is the rendering of the valid series it denotes |
| Series.Examples | src/test/java/io/github/robsonkades/accesskey/SeriesTest.java:30-45 | 0 and 999 are accepted, -1 is refused as negative and 1000 as too large |
| Series.RenderingExamples | src/test/java/io/github/robsonkades/accesskey/SeriesTest.java:15-25 | 5 renders as "005" and 123 as "123" |
| Number.New | src/main/java/io/github/robsonkades/accesskey/Number.java:40-58 | succeeds exactly for 0..999,999,999; negative first, then too large |
| Number.Number.CodeAsString | src/main/java/io/github/robsonkades/accesskey/Number.java:74-76 | the rendering is exactly nine decimal digits |
| Number.TextRoundTrip | src/main/java/io/github/robsonkades/accesskey/Number.java:74-76 | parsing the rendering gives back the code, which the constructor accepts again |
| Number.CanonicalText | src/main/java/io/github/robsonkades/accesskey/Number.java:74-76 | every nine-digit text is the rendering of the valid number it denotes |
| Number.Examples | src/test/java/io/github/robsonkades/accesskey/NumberTest.java:30-45 | both range bounds are accepted and the values just outside are refused with their own failures |
| Number.RenderingExamples | src/test/java/io/github/robsonkades/accesskey/NumberTest.java:23-25 | 123 renders as "000000123" |
| Number.FullWidthRendering | src/test/java/io/github/robsonkades/accesskey/NumberTest.java:15-18 | a number with all nine digits significant, such as 123456789, renders as its plain decimal text, unpadded |
| Code.New | src/main/java/io/github/robsonkades/accesskey/Code.java:8-28 | succeeds exactly for 0..99,999,999; negative first, then too large |
| Code.Code.CodeAsString | src/main/java/io/github/robsonkades/accesskey/Code.java:17-19 | the rendering is exactly eight decimal digits |
| Code.TextRoundTrip | src/main/java/io/github/robsonkades/accesskey/Code.java:17-19 | parsing the rendering gives back the code, which the constructor accepts again |
| Code.CanonicalText | src/main/java/io/github/robsonkades/accesskey/Code.java:17-19 | every eight-digit text is the rendering of the valid code it denotes |
| Code.Examples | src/test/java/io/github/robsonkades/accesskey/CodeTest.java:28-37 | both range bounds are accepted; -1 and 100,000,000 are refused with their own failures |
| Code.RenderingExamples | src/test/java/io/github/robsonkades/accesskey/CodeTest.java:21-23 | 123 renders as "00000123" |
| State.State.Code | src/main/java/io/github/robsonkades/accesskey/State.java:25-51 | every entry's code is a two-digit number in 11..53 |
| State.State.CodeAsString | src/main/java/io/github/robsonkades/accesskey/State.java:108-110 | the rendering is exactly two decimal digits |
| State.Find | src/main/java/io/github/robsonkades/accesskey/State.java:75-79 | a result is an entry of the table with that code; no result means no entry of the table has it |
| State.FromCode | src/main/java/io/github/robsonkades/accesskey/State.java:74-81 | a found state carries the code asked for; otherwise the failure is "unknown code" with that code |
| State.FromText | src/main/java/io/github/robsonkades/accesskey/State.java:90-96 | text that `Integer.parseInt` refuses is a "not numeric" failure; a number outside the table is "unknown code"; a found state's code is the parsed number; `FromTextFindsParsed` gives the converse, that text parsing to a code in the table is found |
| State.ValuesComplete | src/main/java/io/github/robsonkades/accesskey/State.java:25-51 | the table has 27 entries and lists every state |
| State.FromCodeRefusesOnlyUnused | src/main/java/io/github/robsonkades/accesskey/State.java:74-81 | a code is refused only when no state carries it |
| State.CodeInjective | src/main/java/io/github/robsonkades/accesskey/State.java:25-51 | codes are pairwise distinct |
| State.FromCodeInverts | src/main/java/io/github/robsonkades/accesskey/State.java:74-103 | lookup by code gives back every state |
| State.FromTextInverts | src/main/java/io/github/robsonkades/accesskey/State.java:90-110 | lookup by text gives back every state from its rendering |
| State.FromTextFindsParsed | src/main/java/io/github/robsonkades/accesskey/State.java:90-96 | any text that `Integer.parseInt` reads as a state's code, padded or signed, finds that state |
| State.FromTextCanonical | src/main/java/io/github/robsonkades/accesskey/State.java:90-110 | a two-character `[A-Z0-9]` segment that is accepted is the rendering of the state found |
| State.CodeExamples | src/test/java/io/github/robsonkades/accesskey/StateTest.java:15-26 | 35, 33 and 12 give SP, RJ and AC; 999 is an unknown code |
| State.RenderingExamples | src/test/java/io/github/robsonkades/accesskey/StateTest.java:54-57 | SC renders as "42", and MG and RS as "31" and "43" |
| State.TextExamples | src/test/java/io/github/robsonkades/accesskey/StateTest.java:31-33 | "31" and "43" give MG and RS |
| State.ParsedTextExamples | src/main/java/io/github/robsonkades/accesskey/State.java:90-96 | "035" and "+35" both give SP |
| State.TextRefusalExamples | src/test/java/io/github/robsonkades/accesskey/StateTest.java:38-49 | "ABC" is not numeric and "999" is an unknown code |
| Model.Model.Code | src/main/java/io/github/robsonkades/accesskey/Model.java:29-32 | every code is a two-digit number in 55..65 |
| Model.Model.CodeAsString | src/main/java/io/github/robsonkades/accesskey/Model.java:93-95 | the rendering is exactly two decimal digits |
| Model.Find | src/main/java/io/github/robsonkades/accesskey/Model.java:56-60 | a result is an entry of the table with that code; no result means no entry has it |
| Model.FromCode | src/main/java/io/github/robsonkades/accesskey/Model.java:55-62 | a found model carries the code; otherwise "unknown code" with that code |
| Model.FromText | src/main/java/io/github/robsonkades/accesskey/Model.java:71-77 | "not numeric" for text `Integer.parseInt` refuses, "unknown code" for a number outside the table; `FromTextFindsParsed` gives the converse, that text parsing to a code in the table is found |
| Model.ValuesComplete | src/main/java/io/github/robsonkades/accesskey/Model.java:29-32 | the table has 4 entries and lists every model |
| Model.FromCodeRefusesOnlyUnused | src/main/java/io/github/robsonkades/accesskey/Model.java:55-62 | a code is refused only when no model carries it |
| Model.CodeInjective | src/main/java/io/github/robsonkades/accesskey/Model.java:29-32 | codes are pairwise distinct |
| Model.FromCodeInverts | src/main/java/io/github/robsonkades/accesskey/Model.java:55-86 | lookup by code gives back every model |
| Model.FromTextInverts | src/main/java/io/github/robsonkades/accesskey/Model.java:71-95 | lookup by text gives back every model from its rendering |
| Model.FromTextFindsParsed | src/main/java/io/github/robsonkades/accesskey/Model.java:71-77 | any text that `Integer.parseInt` reads as a model's code finds that model |
| Model.FromTextCanonical | src/main/java/io/github/robsonkades/accesskey/Model.java:71-95 | an accepted two-character `[A-Z0-9]` segment is the rendering of the model found |
| Model.CodeExamples | src/test/java/io/github/robsonkades/accesskey/ModelTest.java:15-29 | 55, 65, 57, 58 give NFE, NFCE, CTE, MDFE; 999 is an unknown code |
| Model.RenderingExamples | src/test/java/io/github/robsonkades/accesskey/ModelTest.java:61-63 | NFE renders as "55", NFCE as "65" |
| Model.TextExamples | src/test/java/io/github/robsonkades/accesskey/ModelTest.java:34-36 | "55" and "65" give NFE and NFCE |
| Model.ParsedTextExamples | src/main/java/io/github/robsonkades/accesskey/Model.java:71-77 | "055" and "+55" both give NFE |
| Model.TextRefusalExamples | src/test/java/io/github/robsonkades/accesskey/ModelTest.java:41-56 | "abc" is not numeric and "999" is an unknown code |
| IssueMode.IssueMode.Code | src/main/java/io/github/robsonkades/accesskey/IssueMode.java:4-10 | every code lies in 1..7 |
| IssueMode.IssueMode.CodeAsString | src/main/java/io/github/robsonkades/accesskey/IssueMode.java:41-43 | the rendering is exactly one decimal digit |
| IssueMode.Find | src/main/java/io/github/robsonkades/accesskey/IssueMode.java:21-25 | a result is an entry of the table with that code; no result means no entry has it |
| IssueMode.FromCode | src/main/java/io/github/robsonkades/accesskey/IssueMode.java:20-27 | a found mode carries the code; otherwise "unknown code" with that code |
| IssueMode.FromText | src/main/java/io/github/robsonkades/accesskey/IssueMode.java:29-35 | "not numeric" for text `Integer.parseInt` refuses, "unknown code" for a number outside the table; `FromTextFindsParsed` gives the converse, that text parsing to a code in the table is found |
| IssueMode.ValuesComplete | src/main/java/io/github/robsonkades/accesskey/IssueMode.java:4-10 | the table has 7 entries and lists every mode |
| IssueMode.FromCodeRefusesOnlyUnused | src/main/java/io/github/robsonkades/accesskey/IssueMode.java:20-27 | a code is refused only when no mode carries it |
| IssueMode.CodeInjective | src/main/java/io/github/robsonkades/accesskey/IssueMode.java:4-10 | codes are pairwise distinct |
| IssueMode.FromCodeInverts | src/main/java/io/github/robsonkades/accesskey/IssueMode.java:20-39 | lookup by code gives back every mode |
| IssueMode.FromTextInverts | src/main/java/io/github/robsonkades/accesskey/IssueMode.java:29-43 | lookup by text gives back every mode from its rendering |
| IssueMode.FromTextFindsParsed | src/main/java/io/github/robsonkades/accesskey/IssueMode.java:29-35 | any text that `Integer.parseInt` reads as a mode's code finds that mode |
| IssueMode.FromTextCanonical | src/main/java/io/github/robsonkades/accesskey/IssueMode.java:29-43 | an accepted one-character `[A-Z0-9]` segment is the rendering of the mode found |
| IssueMode.CodeExamples | src/test/java/io/github/robsonkades/accesskey/IssueModeTest.java:13-22 | 1 and 7 give NORMAL and SVC_RS; 99 is an unknown code |
| IssueMode.RenderingExamples | src/test/java/io/github/robsonkades/accesskey/IssueModeTest.java:38-42 | NORMAL renders as "1", SVC_RS as "7" and FS_IA as "2" |
| IssueMode.TextExamples | src/test/java/io/github/robsonkades/accesskey/IssueModeTest.java:26-28 | "2" gives FS_IA |
| IssueMode.ParsedTextExamples | src/main/java/io/github/robsonkades/accesskey/IssueMode.java:29-35 | "02" and "+2" both give FS_IA |
| IssueMode.TextRefusalExamples | src/test/java/io/github/robsonkades/accesskey/IssueModeTest.java:32-34 | "ABC" is not numeric; "99" is an unknown code |
| Decimal.ParseInt | src/main/java/io/github/robsonkades/accesskey/State.java:92 | what `Integer.parseInt` accepts is an optional sign and at least one decimal digit; only a minus sign gives a negative value; a digit string, leading zeros included, is accepted exactly when its value fits in an `int`, and then with that value |
| Decimal.ParseIntOfDigits | src/main/java/io/github/robsonkades/accesskey/AccessKey.java:50-53 | `Integer.parseInt` reads back every zero-padded rendering of up to nine digits |
| Decimal.ParseIntOnUpperAlnum | src/main/java/io/github/robsonkades/accesskey/AccessKey.java:46-53 | on a `[A-Z0-9]` segment of at most nine characters, `Integer.parseInt` succeeds exactly when it is all digits, with their value |
| Decimal.DigitsOfValue | src/main/java/io/github/robsonkades/accesskey/Series.java:54-56 | a digit string is the zero-padded rendering of its own value |
| Decimal.ValueOfDigits | src/main/java/io/github/robsonkades/accesskey/Series.java:54-56 | the value of a zero-padded rendering is the number rendered |
| Decimal.ToDecimalIsDigits | src/main/java/io/github/robsonkades/accesskey/Series.java:54-56 | `String.valueOf` of a number with exactly that many digits is its zero-padded rendering |
| Period.YearOfEra | src/main/java/io/github/robsonkades/accesskey/AccessKey.java:11 | the year of era that `yy` prints from is always positive: years up to 0 count back from 1 |
| Period.InCentury | src/main/java/io/github/robsonkades/accesskey/AccessKey.java:11 | the period a `yyMM` rendering reads back as keeps the month, has a year in 2000..2099, equals the period when that already lies there, and keeps the year modulo 100 for years from 1 on |
| Period.Format | src/main/java/io/github/robsonkades/accesskey/AccessKeyGenerator.java:11 | the `yyMM` rendering is four decimal digits |
| Period.Parse | src/main/java/io/github/robsonkades/accesskey/AccessKey.java:47 | a parsed period has a year in 2000..2099; any failure is a period failure about that text |
| Period.FormatThenParse | src/main/java/io/github/robsonkades/accesskey/AccessKey.java:47 | parsing a rendering keeps the month and the last two digits of the year, and is the identity exactly on the years 2000..2099 |
| Period.FormatInCentury | src/main/java/io/github/robsonkades/accesskey/AccessKeyGenerator.java:11 | a period and its reading in the century from 2000 render alike |
| Period.ParseThenFormat | src/main/java/io/github/robsonkades/accesskey/AccessKey.java:47 | every text that parses is the rendering of the period it parses to |
| Period.FormatOfDigits | src/main/java/io/github/robsonkades/accesskey/AccessKeyGenerator.java:11 | two two-digit fields, the second a month, are the rendering of the period they denote in 2000..2099 |
| Period.FormatExamples | src/test/java/io/github/robsonkades/accesskey/AccessKeyTest.java:18 | 2024-10 renders as "2410", 2010-12 as "1012", 1999-05 as "9905" |
| Period.ParseExamples | src/main/java/io/github/robsonkades/accesskey/AccessKey.java:47 | "1012" and "9905" parse to 2010-12 and 2099-05 |
| Period.ParseRefusalExamples | src/main/java/io/github/robsonkades/accesskey/AccessKey.java:47 | "2413" and "2400", with months 13 and 00, are refused as bad periods |
| AccessKeyGenerator.OffsetSum | src/main/java/io/github/robsonkades/accesskey/AccessKeyGenerator.java:24-31 | the weighted sum of a segment followed by a given number of characters: each character's value minus '0' times the weight of its distance from the end |
| AccessKeyGenerator.WeightedSum | src/main/java/io/github/robsonkades/accesskey/AccessKeyGenerator.java:24-31 | the sum `calcModulo112` accumulates over a whole base |
| AccessKeyGenerator.Weight | src/main/java/io/github/robsonkades/accesskey/AccessKeyGenerator.java:25-30 | every weight lies in 2..9 |
| AccessKeyGenerator.JavaRem | src/main/java/io/github/robsonkades/accesskey/AccessKeyGenerator.java:33 | Java's `%` agrees with the mathematical remainder on non-negative sums and stays strictly between -11 and 11 |
| AccessKeyGenerator.CheckDigit | src/main/java/io/github/robsonkades/accesskey/AccessKeyGenerator.java:33-34 | the digit is one decimal digit; a remainder of 0 or 1 gives 0; otherwise the sum plus the digit is a multiple of 11 |
| AccessKeyGenerator.CalcModulo11 | src/main/java/io/github/robsonkades/accesskey/AccessKeyGenerator.java:23-35 | the right-to-left loop with its cycling weight computes the check digit of the base |
| AccessKeyGenerator.WeightStep | src/main/java/io/github/robsonkades/accesskey/AccessKeyGenerator.java:30 | one step left raises the weight by one, wrapping from 9 to 2 |
| AccessKeyGenerator.OffsetSumConcat | src/main/java/io/github/robsonkades/accesskey/AccessKeyGenerator.java:27-31 | the sum of a base is the sum of its parts, each weighted by its distance from the end |
| AccessKeyGenerator.SumAround | src/main/java/io/github/robsonkades/accesskey/AccessKeyGenerator.java:27-31 | the character at index i of a base of length n counts with weight `2 + (n-1-i) mod 8` |
| AccessKeyGenerator.OffsetSumPeriodic | src/main/java/io/github/robsonkades/accesskey/AccessKeyGenerator.java:30 | weights repeat every eight places |
| AccessKeyGenerator.SumBound | src/main/java/io/github/robsonkades/accesskey/AccessKeyGenerator.java:24-31 | over `[A-Z0-9]` the sum is between 0 and 378 per character, so a 43-character base cannot overflow `int` |
| AccessKeyGenerator.DigitSubstitutionChangesSum | src/main/java/io/github/robsonkades/accesskey/AccessKeyGenerator.java:27-33 | replacing one decimal digit of a base by another always changes the sum modulo 11 |
| AccessKeyGenerator.WeightedDifferenceNonZero | src/main/java/io/github/robsonkades/accesskey/AccessKeyGenerator.java:30-33 | a non-zero digit difference times any weight 2..9 is never a multiple of 11 |
| AccessKeyGenerator.SubstitutionDifference | src/main/java/io/github/robsonkades/accesskey/AccessKeyGenerator.java:27-31 | the sums differ by the digit difference times the weight of its position |
| AccessKey.New | src/main/java/io/github/robsonkades/accesskey/AccessKey.java:22-39 | succeeds exactly when all eight fields are present, with those fields; otherwise reports the first missing field in declaration order |
| AccessKey.Base | src/main/java/io/github/robsonkades/accesskey/AccessKeyGenerator.java:10-17 | the base is 43 characters of `[A-Z0-9]` |
| AccessKey.Generate | src/main/java/io/github/robsonkades/accesskey/AccessKeyGenerator.java:9-21 | the key is well formed (44 characters of `[A-Z0-9]`), begins with the base and ends with the check digit of that base |
| AccessKey.GenerateKey | src/main/java/io/github/robsonkades/accesskey/AccessKey.java:68-70 | generation through the loop gives the same key as `Generate` |
| AccessKey.WellFormed | src/main/java/io/github/robsonkades/accesskey/AccessKey.java:42 | the gate `[A-Z0-9]{44}`: exactly 44 characters, each an upper-case letter or a decimal digit |
| AccessKey.CharDigit | src/main/java/io/github/robsonkades/accesskey/AccessKey.java:54 | a decimal digit reads as its value, any other character as -1 |
| AccessKey.CnpjOf | src/main/java/io/github/robsonkades/accesskey/AccessKey.java:48 | succeeds exactly on a 14-character `[A-Z0-9]` text the CNPJ rules accept, keeping that text |
| AccessKey.ParseIntField | src/main/java/io/github/robsonkades/accesskey/AccessKey.java:50-53 | the parse failure of a series, number or code segment escapes unwrapped |
| AccessKey.ReadSeries | src/main/java/io/github/robsonkades/accesskey/AccessKey.java:50 | succeeds exactly on text that parses to 0..999, with that value; text `Integer.parseInt` refuses fails with the unwrapped number-format failure of the series field, and a parsed value out of range as negative or too large |
| AccessKey.ReadNumber | src/main/java/io/github/robsonkades/accesskey/AccessKey.java:51 | succeeds exactly on text that parses to 0..999,999,999, with that value; otherwise the unwrapped number-format failure of the number field, or negative, or too large |
| AccessKey.ReadCode | src/main/java/io/github/robsonkades/accesskey/AccessKey.java:53 | succeeds exactly on text that parses to 0..99,999,999, with that value; otherwise the unwrapped number-format failure of the code field, or negative, or too large |
| AccessKey.ParseFields | src/main/java/io/github/robsonkades/accesskey/AccessKey.java:46-56 | a parsed key's CNPJ is characters 6..20 and accepted by the CNPJ rules; a failure is a field failure, never a format, mismatch or missing-argument one |
| AccessKey.ParseFieldsFirstFailure | src/main/java/io/github/robsonkades/accesskey/AccessKey.java:46-56 | the reads run in key order and the failure reported is that of the first read that fails, as it fails; when all eight reads succeed the fields are parsed |
| AccessKey.FromReportsFieldFailure | src/main/java/io/github/robsonkades/accesskey/AccessKey.java:42-53 | a well-formed key whose field reads fail is refused with that failure, before any digit is compared |
| AccessKey.From | src/main/java/io/github/robsonkades/accesskey/AccessKey.java:41-65 | the format failure happens exactly for a missing key or one that is not 44 characters of `[A-Z0-9]`; an accepted key's last character reads as the check digit of the parsed key's base |
| AccessKey.BaseLayout | src/main/java/io/github/robsonkades/accesskey/AccessKey.java:46-54 | the slices [0,2), [2,6), [6,20), [20,22), [22,25), [25,34), [34,35), [35,43) of a base are the eight renderings |
| AccessKey.LeadingSegmentsOfBase | src/main/java/io/github/robsonkades/accesskey/AccessKey.java:46-49 | the state, period, CNPJ and model segments of a base read back as their fields |
| AccessKey.TrailingSegmentsOfBase | src/main/java/io/github/robsonkades/accesskey/AccessKey.java:50-53 | the series, number, issue-mode and code segments of a base read back as their fields |
| AccessKey.ParseFieldsOfBase | src/main/java/io/github/robsonkades/accesskey/AccessKey.java:46-56 | reading a generated base gives back the key, its period read in 2000..2099, or the CNPJ failure when the CNPJ rules refuse the issuer |
| AccessKey.GenerateThenFrom | src/main/java/io/github/robsonkades/accesskey/AccessKey.java:41-70 | `from(generate(k))` is k with its period read in 2000..2099, or the CNPJ failure |
| AccessKey.RoundTrip | src/main/java/io/github/robsonkades/accesskey/AccessKey.java:41-70 | for a year in 2000..2099 and an accepted CNPJ, `from(generate(k))` is exactly k |
| AccessKey.ReadSeriesCanonical | src/main/java/io/github/robsonkades/accesskey/AccessKey.java:50 | an accepted series segment is that series' rendering |
| AccessKey.ReadNumberCanonical | src/main/java/io/github/robsonkades/accesskey/AccessKey.java:51 | an accepted number segment is that number's rendering |
| AccessKey.ReadCodeCanonical | src/main/java/io/github/robsonkades/accesskey/AccessKey.java:53 | an accepted code segment is that code's rendering |
| AccessKey.LeadingFieldsFound | src/main/java/io/github/robsonkades/accesskey/AccessKey.java:46-49 | what successful field reads found in the first four segments renders back to those segments |
| AccessKey.TrailingFieldsFound | src/main/java/io/github/robsonkades/accesskey/AccessKey.java:50-53 | what successful field reads found in the last four segments renders back to those segments |
| AccessKey.FromAccepted | src/main/java/io/github/robsonkades/accesskey/AccessKey.java:41-65 | an accepted key is well formed, its base parses to the result, and its last digit equals the regenerated one |
| AccessKey.ParseFieldsCanonical | src/main/java/io/github/robsonkades/accesskey/AccessKey.java:46-56 | a base that parses is the base of the key it parses to |
| AccessKey.SegmentsCanonical | src/main/java/io/github/robsonkades/accesskey/AccessKey.java:46-56 | a `[A-Z0-9]` base each of whose segments reads as the matching field of a key is that key's base |
| AccessKey.LeadingSegmentsCanonical | src/main/java/io/github/robsonkades/accesskey/AccessKey.java:46-49 | the state, period and model segments so read are their fields' renderings |
| AccessKey.TrailingSegmentsCanonical | src/main/java/io/github/robsonkades/accesskey/AccessKey.java:50-53 | the series, number, issue-mode and code segments so read are their fields' renderings |
| AccessKey.SameSegments | src/main/java/io/github/robsonkades/accesskey/AccessKey.java:46-53 | two bases that agree on every segment are equal |
| AccessKey.GenerateEndsWith | src/main/java/io/github/robsonkades/accesskey/AccessKey.java:54-59 | a character that reads as the expected digit is that digit |
| AccessKey.FromThenGenerate | src/main/java/io/github/robsonkades/accesskey/AccessKey.java:41-70 | every accepted string is the generation of the key it parses to |
| AccessKey.FromChecksOwnDigit | src/main/java/io/github/robsonkades/accesskey/AccessKey.java:54-63 | the last character of every accepted key is the check digit of its own first 43 characters |
| AccessKey.FromOfParsed | src/main/java/io/github/robsonkades/accesskey/AccessKey.java:54-64 | once the fields parse, `from` returns the key when the digits agree and a mismatch with the expected and found digits otherwise |
| AccessKey.AcceptedExactlyGenerated | src/main/java/io/github/robsonkades/accesskey/AccessKey.java:41-70 | `from` accepts exactly the strings that `generate` produces for keys whose CNPJ the rules accept |
| AccessKey.MismatchOnOtherDigit | src/main/java/io/github/robsonkades/accesskey/AccessKey.java:54-62 | a parsed base followed by anything but its check digit is a mismatch |
| AccessKey.OtherCharOtherDigit | src/main/java/io/github/robsonkades/accesskey/AccessKey.java:54 | `Character.digit` tells a digit from every other character, so a letter never matches |
| AccessKey.TamperedCheckDigitRejected | src/main/java/io/github/robsonkades/accesskey/AccessKey.java:54-62 | replacing the last character of an accepted key by any other `[A-Z0-9]` character is refused as a mismatch naming the expected and found digits |
| AccessKey.BaseSum | src/main/java/io/github/robsonkades/accesskey/AccessKeyGenerator.java:10-31 | the weighted sum of a base is the sum over its segments, each weighted from its own distance to the end |
| AccessKey.FrontSum | src/main/java/io/github/robsonkades/accesskey/AccessKeyGenerator.java:10-13 | the same for the first four segments |
| AccessKeyExamples.AlphanumericSum | src/test/java/io/github/robsonkades/accesskey/AccessKeyTest.java:44 | the weighted sum of the alphanumeric key's base is 1471 |
| AccessKeyExamples.AlphanumericCheckDigit | src/test/java/io/github/robsonkades/accesskey/AccessKeyTest.java:44 | the alphanumeric key's base sums to 1471, so its check digit is 3 |
| AccessKeyExamples.AlphanumericGenerated | src/test/java/io/github/robsonkades/accesskey/AccessKeyTest.java:44-53 | generating the test's fields gives "352410KSP416L8000109550010000001231999999993" |
| AccessKeyExamples.AlphanumericKeyParsed | src/test/java/io/github/robsonkades/accesskey/AccessKeyTest.java:44-53 | `from` reads that string into the eight fields the test checks |
| AccessKeyExamples.NumericSum | src/test/java/io/github/robsonkades/accesskey/AccessKeyTest.java:90 | the weighted sum of the numeric key's base is 454 |
| AccessKeyExamples.NumericCheckDigit | src/test/java/io/github/robsonkades/accesskey/AccessKeyTest.java:90 | the numeric key's base sums to 454, so its check digit is 8 |
| AccessKeyExamples.NumericGenerated | src/test/java/io/github/robsonkades/accesskey/AccessKeyTest.java:90 | generating the numeric key's fields ends in 8 |
| AccessKeyExamples.NumericKeyParsed | src/test/java/io/github/robsonkades/accesskey/AccessKeyTest.java:90 | the test's numeric key with its last digit corrected to 8 is read into its eight fields |
| AccessKeyExamples.NumericTampered | src/test/java/io/github/robsonkades/accesskey/AccessKeyTest.java:90-98 | that base followed by any `[A-Z0-9]` character but 8 is a mismatch expecting 8 |
| AccessKeyExamples.NumericKeyRefused | src/test/java/io/github/robsonkades/accesskey/AccessKeyTest.java:90-98 | the test's key ending in 1 and its variant ending in 9 are both refused, expecting 8 |
| AccessKeyExamples.FormatRefusals | src/test/java/io/github/robsonkades/accesskey/AccessKeyTest.java:59-84 | a missing key, "123" and a key with '@' and '#' are format failures |
| AccessKeyExamples.UnknownStateRefused | src/main/java/io/github/robsonkades/accesskey/AccessKey.java:46 | a well-formed key whose state segment is "99" is refused with the unknown state code 99, whatever follows |
| AccessKeyExamples.UnknownStateExample | src/main/java/io/github/robsonkades/accesskey/AccessKey.java:46 | the alphanumeric test key with its state replaced by 99 is refused so |
| AccessKeyExamples.BadMonthRefused | src/main/java/io/github/robsonkades/accesskey/AccessKey.java:46-47 | a key with a known state and month 13 is refused as a bad period, before its CNPJ is read |
| AccessKeyExamples.SeriesNotNumericRefused | src/main/java/io/github/robsonkades/accesskey/AccessKey.java:46-50 | once the first four reads succeed, a series segment with a letter escapes as that segment's number-format failure |
| AccessKeyExamples.MissingArguments | src/test/java/io/github/robsonkades/accesskey/AccessKeyTest.java:124-133 | leaving out any one constructor argument reports that argument as missing |

## Left out

- The CNPJ library is not part of this model. Its own validation is the parameter `accepts`. `CNPJ.of(v).getValue()` is taken to be `v`.
- `java.time.YearMonth` and `DateTimeFormatter` are replaced by `Period`. Only the `yyMM` pattern is modelled: the year printed as the last two digits of the year of era, and two-digit years read as 2000..2099. The rest of the library is out of scope.
- The regular expression `[A-Z0-9]{44}` is the predicate `WellFormed`. No regex engine is modelled.
- Decimal digits other than ASCII ones are out of scope. `Integer.parseInt` and `Character.digit` accept them, but they cannot occur after the `[A-Z0-9]` gate.
- The text of exception messages is not modelled. Each exception is an `Error` variant that carries the same data: the field, the value or text, and the expected and found digits.
- `toString`, `getName`, `getDescription`, `hashCode` and `equals` are presentation or Java identity. Equality of `Series`, `Number` and `Code` on their code is Dafny's equality on the newtype.
- The fluent `AccessKeyBuilder` only forwards to the constructors above.
- AccessKey.Generate: the function form uses the specification `CheckDigit`. The loop is `CalcModulo11`, proved equal to it and used by `GenerateKey`.
- AccessKeyGenerator.CheckDigit: the 32-bit arithmetic of `sum` is unbounded here. `SumBound` shows that a base of `[A-Z0-9]` never exceeds 16,254, so no wrap-around is left out.

## Findings

| source | as written | input that shows it | evidently intended | confidence | as-written member | corrected member |
|---|---|---|---|---|---|---|
| src/test/java/io/github/robsonkades/accesskey/AccessKeyTest.java:90 | the key named `validKey` ends in check digit 1 | "35101212345678000195550010000012341000000001": its base sums to 454 and 454 mod 11 = 3, so the check digit is 8 | a valid key ending in 8; the test still passes because the digit 9 it substitutes is also wrong | high; not executed | AccessKeyExamples.NumericKeyRefused | AccessKeyExamples.NumericKeyParsed |
