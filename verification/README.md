# CardioAI patient portal: a verified model of its components

CardioAI is a patient portal. A patient answers a cardiovascular risk questionnaire through a
chatbot, can upload a lab report from which cholesterol and blood-pressure values are read, and
then sees their assessments, a cardiologist search, and pages for account and password handling.
This project models the logic of those React components in Dafny and proves what they do:

- **The questionnaire** (`ChatbotFlow`): the step it opens on, the field and record validators,
  the guarded step advance, the delayed auto-advance after an answer, and the jump back to the
  first step with an error. It also covers reading an uploaded lab report: the reader chosen by
  MIME type, the error message per file kind, and merging the values found into the answers.
- **The lab-report extractor** (`LabPatterns`, `LabExtractor`, `LabExamples`). Each regular
  expression becomes an explicit scanner. Each of the six passes is a specification function
  plus a method with the original loops, proved equal to it. The model proves what every pass
  decides: first offer wins, last line wins, counting, and plausible ranges. It also proves that
  a one-line `HDL 45` report is recognised by the keyword pass but never counted, so
  `parseLabFile` discards it.
- **The results and history views** (`AssessmentResults`, `AssessmentHistory`): the risk colour
  of a category, when the cardiologist search is offered, how the provider search answer is read,
  the heading format and icon of a recommendation, which view the history shows, the buttons of
  each entry, and deleting an entry.
- **The dashboard** (`Dashboard`): the pending and consent flags, deleting one assessment, and
  revoking consent together with all data.
- **Passwords** (`PasswordRules`, `ResetPassword`, `PasswordChangeModal`): the strength rule, the
  mismatch-then-strength-then-update order of a submit, and when the submit button is enabled.
- **Sign in** (`AuthModal`), the **testimonials carousel** (`Carousel`), the **FAQ list**
  (`Faq`) and the stand-alone **cardiologist search form** (`CardiologistSearch`).

`Json` models the JSON values the components receive, with JavaScript truthiness, property
access, `?.` and `??`. `Text` holds the string primitives the components call: `trim`, `split`,
`toLowerCase`, `includes`, `indexOf`, `replace(/\s+/g, ' ')` and `parseInt`.

Component state that React keeps in `useState` is a Dafny `class` whose methods are the event
handlers. Each handler's `ensures` states the whole new state in terms of specification
functions, and lemmas prove the properties of those functions. A remote call (Supabase, the
provider webhook, the edge function) is a parameter holding its reply. A timer callback is
either taken as having fired or becomes its own method.

The success message "Found N lab value(s)" counts only the values stored by the counting passes
(exact lines, broad patterns, context windows, last resort). The keyword and proximity passes
store values without counting them. When nothing was counted, the values they stored are
dropped with the rest (`LabExamples.HdlOnlyRecognisedNotCounted`,
`ChatbotFlow.HdlOnlyFileDiscarded`). When something was counted, they are merged and listed,
but not counted in N.

## Model

| member | source | states |
|---|---|---|
| Text.Lower | src/components/ChatbotFlow.tsx:214 | `toLowerCase` of one character: upper-case ASCII letters map to their lower-case letter, every other character is unchanged, and the result is never upper case |
| Text.Upper | src/components/AssessmentResults.tsx:220 | `toUpperCase` of one character: lower-case ASCII letters map to their capital, every other character is unchanged |
| Text.LowerStr | src/components/ChatbotFlow.tsx:214 | `s.toLowerCase()` keeps the length and folds each character on its own |
| Text.LowerStrIdempotent | src/components/AssessmentResults.tsx:22 | lower-casing twice is lower-casing once |
| Text.IndexOfFrom | src/components/ChatbotFlow.tsx:374 | `indexOf` returns -1 or a position at or after the start where the word occurs |
| Text.IndexOfFromFirst | src/components/ChatbotFlow.tsx:374 | the reported position is the first occurrence, and -1 means the word occurs nowhere after the start |
| Text.IndexOfAbsent | src/components/ChatbotFlow.tsx:374 | a word whose first character is absent is not found |
| Text.IndexOfNone | src/components/ChatbotFlow.tsx:374 | a word that occurs nowhere is reported as -1 |
| Text.ContainsIff | src/components/ChatbotFlow.tsx:214 | `includes` holds exactly when the word occurs at some position |
| Text.SkipSpaces | src/components/ChatbotFlow.tsx:153 | the run of `\s` characters from a position: all spaces, ending at the end or at a non-space |
| Text.DigitRun | src/components/ChatbotFlow.tsx:161 | the run of digits from a position: all digits, ending at the end or at a non-digit |
| Text.EndOfContent | src/components/ChatbotFlow.tsx:153 | the point after which only whitespace remains, just after a non-space |
| Text.Trim | src/components/ChatbotFlow.tsx:153 | `trim()` yields a slice of the input that neither starts nor ends with whitespace, and only whitespace is cut off around it |
| Text.TrimIdempotent | src/components/ChatbotFlow.tsx:153 | trimming a trimmed string changes nothing |
| Text.SplitOnNewline | src/components/ChatbotFlow.tsx:153 | `split` yields at least one piece, and no piece contains a line feed |
| Text.TrimNonEmpty | src/components/ChatbotFlow.tsx:153 | `map(trim).filter(non-empty)` keeps at most as many pieces, each non-empty and trimmed |
| Text.Lines | src/components/ChatbotFlow.tsx:153 | the report lines are all non-empty and trimmed |
| Text.CollapseRuns | src/components/ChatbotFlow.tsx:195 | `replace(/\s+/g, ' ')` leaves only plain single spaces, never two whitespace characters in a row, and is no longer than the input |
| Text.CollapseRunsIdentity | src/components/ChatbotFlow.tsx:195 | text already made of single plain spaces is left unchanged |
| Text.DigitsValue | src/components/ChatbotFlow.tsx:163 | `parseInt` of a digit string is below ten to the number of digits |
| Text.Pow10 | src/components/ChatbotFlow.tsx:163 | powers of ten are positive |
| Text.NatToString | src/components/ChatbotFlow.tsx:446-448 | the decimal rendering of a value in a template literal is non-empty digits and reads back as the same number |
| Text.Join | src/components/ChatbotFlow.tsx:450 | joining one item yields that item |
| Text.SkipSpacesAt | src/components/ChatbotFlow.tsx:153 | a whitespace run from a position that ends at the end or at a non-space is exactly the run `SkipSpaces` finds |
| Text.IndexOfAt | src/components/ChatbotFlow.tsx:374 | `indexOf` reports an occurrence that has no occurrence before it |
| Text.SplitOnNewlineJoin | src/components/ChatbotFlow.tsx:153 | joining the pieces of `split` with line feeds gives the text back |
| Text.JoinSplitOnNewline | src/components/ChatbotFlow.tsx:153 | splitting a join of line-feed-free pieces gives the same pieces back |
| Text.TrimNonEmptyAppend | src/components/ChatbotFlow.tsx:153 | `map(trim).filter(non-empty)` of a concatenation is the concatenation of the two results |
| Text.TrimNonEmptyOne | src/components/ChatbotFlow.tsx:153 | one piece yields its trimmed form, or nothing when trimming empties it |
| Text.TrimNonEmptyKeeps | src/components/ChatbotFlow.tsx:153 | pieces already trimmed and non-empty pass through unchanged |
| Text.LinesJoin | src/components/ChatbotFlow.tsx:153 | non-empty, trimmed lines joined by line feeds are read back as the same lines |
| Text.CollapseRunsBlank | src/components/ChatbotFlow.tsx:195 | a non-empty run of whitespace becomes one plain space |
| Text.CollapseRunsOther | src/components/ChatbotFlow.tsx:195 | a character other than whitespace is kept as it is |
| Text.CollapseRunsAppend | src/components/ChatbotFlow.tsx:195 | collapsing a concatenation collapses each part when no whitespace run straddles the join, which with the two rules above fixes the result for every text |
| Text.CollapseRunsAppendSpace | src/components/ChatbotFlow.tsx:195 | the same when the first part opens with whitespace |
| Text.DigitsValueOne | src/components/ChatbotFlow.tsx:163 | `parseInt` of one digit is its face value |
| Text.DigitsValueAppend | src/components/ChatbotFlow.tsx:163 | appending digits multiplies the value read so far by ten per digit and adds the value of the new digits |
| Text.DigitsValueLeading | src/components/ChatbotFlow.tsx:163 | digits without a leading zero are worth at least ten to one less than their count |
| Text.DigitsValueRoundTrip | src/components/ChatbotFlow.tsx:163 | rendering the value of digits without a leading zero gives the same digits back |
| Text.JoinAppend | src/components/ChatbotFlow.tsx:450 | joining a concatenation puts exactly one separator between the joins of the two parts |
| Json.Prop | src/components/AssessmentResults.tsx:60-74 | a property read on a non-null value is defined exactly for an object's own key, and then reads that key's value |
| Json.OptionalProp | src/components/CardiologistSearch.tsx:37 | `x?.key` is defined exactly when `x` is an object with that key, and then is that key's value |
| Json.Coalesce | src/components/CardiologistSearch.tsx:37 | `x ?? fallback` is the fallback when `x` is missing or null, and `x` itself otherwise |
| LabPatterns.KeywordEnd | src/components/ChatbotFlow.tsx:290-296 | a keyword matched from a position ends within the text, at least its minimum length further on |
| LabPatterns.FirstFrom | src/components/ChatbotFlow.tsx:208 | a leftmost scan over positions returns a position in range that satisfies the test |
| LabPatterns.FirstFromNone | src/components/ChatbotFlow.tsx:208 | the leftmost scan comes back empty exactly when no position in range satisfies the test |
| LabPatterns.FirstFromLeftmost | src/components/ChatbotFlow.tsx:183 | the leftmost scan returns the first satisfying position, as a regular-expression search does |
| LabPatterns.FindKeywordIff | src/components/ChatbotFlow.tsx:377 | `/k/i.test(s)` holds exactly when some position starts a match |
| LabPatterns.KeywordAbsent | src/components/ChatbotFlow.tsx:290-296 | a keyword whose first letter does not occur in any case cannot match |
| LabPatterns.SkipGap | src/components/ChatbotFlow.tsx:290-296 | the lazy `[^\d]*?` gap stops at the first digit and contains none |
| LabPatterns.MatchAt | src/components/ChatbotFlow.tsx:298-300 | a match at a position is the keyword, the gap, then the digit group; it ends after the position and captures a number below 1000 |
| LabPatterns.MatchValues | src/components/ChatbotFlow.tsx:298 | `matchAll` is the leftmost scan with the pattern's matcher, and every number it yields is below 1000 |
| LabPatterns.MatchValuesNone | src/components/ChatbotFlow.tsx:298 | a pattern whose keyword matches nowhere yields no numbers |
| LabPatterns.PatternsAbsent | src/components/ChatbotFlow.tsx:297-308 | patterns starting with letters absent from the text yield no numbers |
| LabPatterns.TotalInitials | src/components/ChatbotFlow.tsx:290-296 | every broad total-cholesterol pattern starts with `c` or `t` |
| LabPatterns.SystolicInitials | src/components/ChatbotFlow.tsx:337-343 | every broad systolic pattern starts with `s` or `b` |
| LabPatterns.ExactCholesterol | src/components/ChatbotFlow.tsx:161 | the `Cholesterol NNN` line format captures a number of at most three digits |
| LabPatterns.ExactHdlCholesterol | src/components/ChatbotFlow.tsx:172 | the `HDL Cholesterol NNN` line format captures a number of at most three digits |
| LabPatterns.LeadingNumber | src/components/ChatbotFlow.tsx:185 | the number read from a run of digits is below ten to its length |
| LabPatterns.FirstSlashPair | src/components/ChatbotFlow.tsx:183 | the first group of the pressure pair has at most three digits |
| LabPatterns.PairNumberBound | src/components/ChatbotFlow.tsx:183 | the first group of a matched pressure pair, two or three digits, is below 1000 |
| LabPatterns.FirstSlashPairFound | src/components/ChatbotFlow.tsx:183 | the pair is found exactly when some position starts one |
| LabPatterns.FirstSlashPairLeftmost | src/components/ChatbotFlow.tsx:183-185 | the value read is the leading number at the leftmost position that starts a pair |
| LabPatterns.HasNumericRangeIff | src/components/ChatbotFlow.tsx:208 | `/\d+\s*-\s*\d+/` matches exactly when some position starts such a range |
| LabPatterns.Tokens | src/components/ChatbotFlow.tsx:215 | `match(/\b\d+\b/g)` yields non-empty digit strings |
| LabPatterns.ShortTokens | src/components/ChatbotFlow.tsx:363 | `/\b(\d{2,3})\b/g` yields tokens of two or three digits taken from the standalone numbers |
| LabPatterns.Substring | src/components/ChatbotFlow.tsx:375-376 | `substring` is never longer than the string |
| LabPatterns.DigitGroup | src/components/ChatbotFlow.tsx:298-300 | the digit group of a pattern, tried at a position, ends after it and captures a number below 1000 |
| LabPatterns.ScanBelow | src/components/ChatbotFlow.tsx:298 | a `matchAll` scan whose every match captures less than a bound yields only numbers below it |
| LabPatterns.ScanSkipRun | src/components/ChatbotFlow.tsx:298 | positions where nothing matches are skipped by the scan |
| LabPatterns.ScanEmptyIff | src/components/ChatbotFlow.tsx:298 | the scan yields nothing exactly when no position in range starts a match |
| LabPatterns.ScanLeftmost | src/components/ChatbotFlow.tsx:298 | the scan yields the capture of the leftmost match first, then resumes where that match ends |
| LabPatterns.MatcherAdvances | src/components/ChatbotFlow.tsx:298-300 | every match of a lab pattern ends after its start and captures a number below 1000 |
| LabPatterns.KeywordEndAppend | src/components/ChatbotFlow.tsx:290-296 | a keyword made of two parts matches the first part and then the second from where the first ended |
| LabPatterns.KeywordEndWord | src/components/ChatbotFlow.tsx:290-296 | a word matches exactly when the text continues with it in any case, and ends right after it |
| LabPatterns.KeywordEndOneWord | src/components/ChatbotFlow.tsx:290-296 | a word matches at a position exactly when the text there reads as the word, ignoring case |
| LabPatterns.KeywordEndSpaces | src/components/ChatbotFlow.tsx:290-296 | `\s+` ends at a position exactly when at least one whitespace character precedes it, all whitespace, and it is the end or a non-space |
| LabPatterns.KeywordEndAny | src/components/ChatbotFlow.tsx:290-296 | `.` matches one character other than a line terminator |
| LabPatterns.KeywordEndWordSpaces | src/components/ChatbotFlow.tsx:161 | a word followed by `\s+` ends at a position exactly when the word is there in any case and a maximal whitespace run follows it up to that position |
| LabPatterns.SkipGapClass | src/components/ChatbotFlow.tsx:290-296 | the gap skipped before the number consists of gap characters and ends at the end or at a character outside the gap |
| LabPatterns.MatchAtGap | src/components/ChatbotFlow.tsx:298-300 | after the keyword, the lazy gap ends at the first digit, where the digit group is tried |
| LabPatterns.DigitGroupIff | src/components/ChatbotFlow.tsx:298-300 | the digit group matches exactly when enough digits are there and, for the pressure patterns, at most three digits are followed by a slash |
| LabPatterns.DigitGroupCapture | src/components/ChatbotFlow.tsx:298-300 | the number captured is the value of the first digits, at most three, and the match ends after them, or after the slash for the pressure patterns |
| LabPatterns.MatchAtIff | src/components/ChatbotFlow.tsx:298-300 | a match at a position, given its keyword and the first digit after it, exists exactly under the digit-group condition and captures the value of its first digits, at most three |
| LabPatterns.MatchAtNeedsDigit | src/components/ChatbotFlow.tsx:298-300 | a match needs its keyword and then a digit after a run of gap characters |
| LabPatterns.MatchValuesEmptyIff | src/components/ChatbotFlow.tsx:298 | `matchAll` yields no numbers exactly when no position starts a match |
| LabPatterns.MatchValuesLeftmost | src/components/ChatbotFlow.tsx:298-300 | `matchAll` yields the number of the leftmost match first, then continues after that match |
| LabPatterns.ExactCholesterolIff | src/components/ChatbotFlow.tsx:161-163 | a line reads as `Cholesterol NNN` with value v exactly when it is the label in any case, whitespace, then two or three digits to the end worth v |
| LabPatterns.ExactHdlCholesterolShape | src/components/ChatbotFlow.tsx:172 | a line read as `HDL Cholesterol NNN` has the two labels, whitespace after each, and one to three digits to the end |
| LabPatterns.HdlFirstLabel | src/components/ChatbotFlow.tsx:172 | a line of that shape starts with `HDL` and whitespace |
| LabPatterns.HdlSecondLabel | src/components/ChatbotFlow.tsx:172 | a line of that shape continues with `Cholesterol` and whitespace |
| LabPatterns.HdlShapeMatches | src/components/ChatbotFlow.tsx:172 | a line of that shape is read with the value of its digits |
| LabPatterns.ExactHdlCholesterolIff | src/components/ChatbotFlow.tsx:172 | a line reads as `HDL Cholesterol NNN` with value v exactly when it has that shape with digits worth v |
| LabPatterns.LeadingNumberStep | src/components/ChatbotFlow.tsx:185 | `parseInt` of a digit run is its first digit times ten to the rest's length plus the value of the rest |
| LabPatterns.TokensEmptyIff | src/components/ChatbotFlow.tsx:215 | `match(/\b\d+\b/g)` finds nothing exactly when no position starts a standalone number |
| LabPatterns.TokensLeftmost | src/components/ChatbotFlow.tsx:215 | the first number found is the whole digit run at the leftmost position that starts a standalone number, and the search resumes after it |
| LabPatterns.ShortTokensAppend | src/components/ChatbotFlow.tsx:363 | keeping the two- and three-digit numbers of a concatenation keeps them from each part in order |
| LabPatterns.ShortTokensOne | src/components/ChatbotFlow.tsx:363 | a number is kept exactly when it has two or three digits |
| LabPatterns.SubstringBetween | src/components/ChatbotFlow.tsx:375-376 | `substring` clamps both ends to the string, swaps them when they are reversed, and returns the slice between them |
| LabExtractor.FirstOffer | src/components/ChatbotFlow.tsx:162 | reference definition: the first value offered for a field is absent exactly when no offer names the field, and otherwise comes from some offer |
| LabExtractor.FirstOfferAppend | src/components/ChatbotFlow.tsx:162 | a later offer matters only when no earlier offer named the field |
| LabExtractor.FillStepSlot | src/components/ChatbotFlow.tsx:162-166 | one step fills each field only if it is empty |
| LabExtractor.OffersFirstWins | src/components/ChatbotFlow.tsx:157-192 | after a counting loop each field keeps its old value, or else holds the first value offered; later offers never replace it |
| LabExtractor.OffersCount | src/components/ChatbotFlow.tsx:166 | `foundValues` grows by exactly the number of fields filled, and no field is emptied |
| LabExtractor.OffersPlausible | src/components/ChatbotFlow.tsx:164 | plausible offers leave plausible values |
| LabExtractor.FillSlot | src/components/ChatbotFlow.tsx:162-168 | the repeated block stores an in-range candidate into an empty field and counts one exactly when it does |
| LabExtractor.ExactOffer | src/components/ChatbotFlow.tsx:161-190 | a line offers only values in the pass's ranges: total 100-500, HDL 20-150, systolic 80-250 |
| LabExtractor.ExactOffers | src/components/ChatbotFlow.tsx:157 | one plausible offer per line |
| LabExtractor.ScanExactLines | src/components/ChatbotFlow.tsx:157-192 | the exact-line loop computes the first-offer-wins fill over the lines' offers |
| LabExtractor.FillExact | src/components/ChatbotFlow.tsx:162-190 | the three checks of one exact line fill each empty field with its in-range reading, in the order total, HDL, systolic |
| LabExtractor.ExactLine | src/components/ChatbotFlow.tsx:159-191 | one iteration of the exact-line loop is one fill step with that line's offer |
| LabExtractor.KeywordReads | src/components/ChatbotFlow.tsx:200 | one reading per line |
| LabExtractor.KeywordSets | src/components/ChatbotFlow.tsx:214-259 | a line writes total cholesterol only in 100-400, HDL only in 20-100, and never blood pressure |
| LabExtractor.KeywordStepSets | src/components/ChatbotFlow.tsx:214-259 | a line overwrites a field exactly with the value it sets, and leaves it alone otherwise |
| LabExtractor.LastKeywordSet | src/components/ChatbotFlow.tsx:200-260 | reference definition: the last value written to a field, within the same ranges |
| LabExtractor.KeywordLinesLastWins | src/components/ChatbotFlow.tsx:200-260 | the keyword pass overwrites: each field ends with the last line's value for it, whatever earlier passes stored, and is unchanged when no line writes it |
| LabExtractor.KeywordLine | src/components/ChatbotFlow.tsx:201-259 | one loop iteration (skip rule, cholesterol rule, HDL rule, value rule) computes the line's step |
| LabExtractor.ScanKeywordLines | src/components/ChatbotFlow.tsx:200-260 | the keyword loop computes the pass's specification |
| LabExtractor.ProximityReads | src/components/ChatbotFlow.tsx:263 | one reading per line |
| LabExtractor.ProximityValue | src/components/ChatbotFlow.tsx:267-275 | the value found below a label lies in 100-400 |
| LabExtractor.ProximitySets | src/components/ChatbotFlow.tsx:265-277 | a labelled line writes only a value in 100-400 |
| LabExtractor.LastProximitySet | src/components/ChatbotFlow.tsx:263-280 | reference definition: the value of the last labelled line that finds one, in 100-400 |
| LabExtractor.ProximityLastWins | src/components/ChatbotFlow.tsx:263-280 | the proximity pass sets total cholesterol to the last value found, if any, and changes nothing else |
| LabExtractor.FollowingValue | src/components/ChatbotFlow.tsx:267-275 | the inner loop finds the first bare number in 100-400 among the next three lines |
| LabExtractor.ProximityLine | src/components/ChatbotFlow.tsx:264-278 | one iteration writes the line's value into total cholesterol, if it has one |
| LabExtractor.ScanProximity | src/components/ChatbotFlow.tsx:263-280 | the proximity loop computes the pass's specification |
| LabExtractor.FirstInRange | src/components/ChatbotFlow.tsx:299-306 | reference definition: the first value within the bounds is one of the values and lies in the bounds; it is absent exactly when none does |
| LabExtractor.FirstInRangeAppend | src/components/ChatbotFlow.tsx:297-308 | the first in-range value of a concatenation comes from the front when the front has one |
| LabExtractor.FirstValueInRange | src/components/ChatbotFlow.tsx:299-306 | the loop over one pattern's matches returns the first value in range |
| LabExtractor.FirstInRangeFound | src/components/ChatbotFlow.tsx:299-306 | with nothing in range before it, a value in range is the first one found |
| LabExtractor.FirstInRangeSkip | src/components/ChatbotFlow.tsx:299-306 | with nothing in range before it, a value out of range leaves nothing found |
| LabExtractor.FirstMatchInRange | src/components/ChatbotFlow.tsx:297-308 | the loops over patterns and matches return the first in-range value across all patterns in order |
| LabExtractor.NextPattern | src/components/ChatbotFlow.tsx:297-308 | while no earlier pattern has a value in range, the next pattern decides |
| LabExtractor.RestOfValues | src/components/ChatbotFlow.tsx:308 | once a pattern yields a value in range, the remaining patterns do not matter (the `break`) |
| LabExtractor.PrefixValues | src/components/ChatbotFlow.tsx:297 | the numbers of the first k+1 patterns extend those of the first k |
| LabExtractor.BroadOffer | src/components/ChatbotFlow.tsx:289-357 | the broad patterns offer only total 100-500, HDL 20-150 and systolic 80-250 |
| LabExtractor.BroadField | src/components/ChatbotFlow.tsx:289-310 | one block fills an empty field with the first match in range, and counts it |
| LabExtractor.ScanBroadPatterns | src/components/ChatbotFlow.tsx:285-358 | the broad pass computes its specification: it runs only while fewer than three values were counted |
| LabExtractor.BroadFields | src/components/ChatbotFlow.tsx:289-357 | the three broad blocks together are one fill step with the first match in 100-500, 20-150 and 80-250 |
| LabExtractor.ContextOffer | src/components/ChatbotFlow.tsx:367-412 | a number offers total 150-300, HDL 30-100 or systolic 90-180, only when its 50-character window names that field |
| LabExtractor.OfferNear | src/components/ChatbotFlow.tsx:371-408 | a number is offered to a field exactly when the field's words are near and the number is in its context range, and only that number is offered |
| LabExtractor.ContextNumbers | src/components/ChatbotFlow.tsx:363 | the numbers tried are digit strings |
| LabExtractor.ContextOffers | src/components/ChatbotFlow.tsx:367 | one plausible offer per number |
| LabExtractor.ContextNumber | src/components/ChatbotFlow.tsx:368-412 | one iteration is one fill step with that number's offer |
| LabExtractor.FillNear | src/components/ChatbotFlow.tsx:371-411 | the three context checks of one number are one fill step with that number's offer |
| LabExtractor.ScanContext | src/components/ChatbotFlow.tsx:361-414 | the context pass computes its specification: it runs only while fewer than two values were counted |
| LabExtractor.FinalOffer | src/components/ChatbotFlow.tsx:421-438 | the last resort offers total cholesterol in 100-500 only |
| LabExtractor.ScanFinalCholesterol | src/components/ChatbotFlow.tsx:417-440 | the last-resort pass computes its specification: it runs only when nothing was counted |
| LabExtractor.FillStepBounds | src/components/ChatbotFlow.tsx:162-166 | a fill step keeps values plausible and the counter within the number of fields set |
| LabExtractor.LinePassesBounds | src/components/ChatbotFlow.tsx:157-280 | the three line passes store only plausible values, and the counter never exceeds the fields set |
| LabExtractor.TextPassesBounds | src/components/ChatbotFlow.tsx:285-440 | the three text passes keep plausibility and the counter bound |
| LabExtractor.ExtractBounds | src/components/ChatbotFlow.tsx:145-440 | every stored value lies in its plausible range (total 100-500, HDL 20-150, systolic 80-250), and `foundValues` never exceeds the number of fields holding a value, which is at most three |
| LabExtractor.ExtractLabValues | src/components/ChatbotFlow.tsx:145-440 | the six passes run in the source's order compute the extractor's specification, with plausible values and a bounded counter |
| LabExamples.CholesterolLine | src/components/ChatbotFlow.tsx:161-168 | `Cholesterol 177` offers total cholesterol 177 and nothing else |
| LabExamples.CholesterolLabel | src/components/ChatbotFlow.tsx:161 | the label of `Cholesterol 177` ends where the number starts |
| LabExamples.CholesterolLineRead | src/components/ChatbotFlow.tsx:161 | `Cholesterol 177` is read as 177 by the exact total-cholesterol line format |
| LabExamples.CholesterolNoSlash | src/components/ChatbotFlow.tsx:183 | `Cholesterol 177` holds no slash |
| LabExamples.HighHdlLabelTail | src/components/ChatbotFlow.tsx:172 | after `HDL`, the label of `HDL Cholesterol 255` ends where the number starts |
| LabExamples.HighHdlWordTail | src/components/ChatbotFlow.tsx:172 | the word `Cholesterol` and the space after it end where the number of `HDL Cholesterol 255` starts |
| LabExamples.HighHdlLabel | src/components/ChatbotFlow.tsx:172 | the whole label of `HDL Cholesterol 255` ends where the number starts |
| LabExamples.HighHdlLineRead | src/components/ChatbotFlow.tsx:172 | `HDL Cholesterol 255` is read as 255 by the exact HDL format |
| LabExamples.HighHdlLineRejected | src/components/ChatbotFlow.tsx:172-180 | 255 is outside 20-150, so that line offers nothing |
| LabExamples.HighHdlNoSlash | src/components/ChatbotFlow.tsx:183 | `HDL Cholesterol 255` holds no slash |
| LabExamples.PressurePairRead | src/components/ChatbotFlow.tsx:183 | `120/80` starts a pressure pair whose first number is 120 |
| LabExamples.PressurePairShape | src/components/ChatbotFlow.tsx:183 | `120/80` matches the pressure pair at its start |
| LabExamples.PressureLeading | src/components/ChatbotFlow.tsx:185 | the first number of `120/80` is 120 |
| LabExamples.PressurePairLine | src/components/ChatbotFlow.tsx:183-190 | `120/80` offers systolic pressure 120 |
| LabExamples.CapitalisedCholesterol | src/components/ChatbotFlow.tsx:161 | `/i` matching: `Cholesterol` folds to the keyword wherever it stands |
| LabExamples.UpperHdl | src/components/ChatbotFlow.tsx:172 | `/i` matching: `HDL` folds to the keyword |
| LabExamples.NoSlashPair | src/components/ChatbotFlow.tsx:183 | a line without a slash has no pressure pair |
| LabExamples.HdlOnlyChars | src/components/ChatbotFlow.tsx:153 | the one-line report `HDL 45` consists of its six characters |
| LabExamples.HdlOnlyTrimmed | src/components/ChatbotFlow.tsx:153 | `HDL 45` is already trimmed |
| LabExamples.HdlOnlyLines | src/components/ChatbotFlow.tsx:153 | `HDL 45` is one line |
| LabExamples.HdlOnlyNormalised | src/components/ChatbotFlow.tsx:195 | `HDL 45` is its own clean text |
| LabExamples.HdlOnlyExact | src/components/ChatbotFlow.tsx:161-190 | no exact line format fits `HDL 45` |
| LabExamples.HdlOnlyTokens | src/components/ChatbotFlow.tsx:215 | the standalone numbers of `HDL 45` are `45` |
| LabExamples.HdlOnlyLower | src/components/ChatbotFlow.tsx:226 | `HDL 45` lower-cases to `hdl 45` |
| LabExamples.HdlOnlyNotReference | src/components/ChatbotFlow.tsx:205-208 | `HDL 45` is not skipped as a reference-range line |
| LabExamples.NoDashNoRange | src/components/ChatbotFlow.tsx:208 | a line without a dash holds no numeric range |
| LabExamples.HdlOnlyLabels | src/components/ChatbotFlow.tsx:214-241 | `HDL 45` is an HDL label, not a cholesterol label, and not a value line |
| LabExamples.HdlOnlyKeywordRead | src/components/ChatbotFlow.tsx:200-259 | the keyword pass reads `HDL 45` as an HDL label with the number 45 |
| LabExamples.FirstLineRead | src/components/ChatbotFlow.tsx:245-249 | the first line of a document has no preceding context |
| LabExamples.HdlOnlyTotalPatterns | src/components/ChatbotFlow.tsx:290-296 | the broad cholesterol patterns find no number in `HDL 45` |
| LabExamples.HdlOnlyFinalPatterns | src/components/ChatbotFlow.tsx:421-438 | the last-resort cholesterol patterns find no number in `HDL 45` |
| LabExamples.HdlOnlySystolicPatterns | src/components/ChatbotFlow.tsx:337-343 | no systolic pattern finds a number in `HDL 45` |
| LabExamples.HdlOnlyContextNumbers | src/components/ChatbotFlow.tsx:363 | the context pass tries only the number 45 |
| LabExamples.HdlOnlyLinePasses | src/components/ChatbotFlow.tsx:157-280 | the three line passes store HDL 45 in `HDL 45` and count nothing |
| LabExamples.OneLineExact | src/components/ChatbotFlow.tsx:157-191 | on a one-line document the exact pass is a single fill step |
| LabExamples.OneLineKeyword | src/components/ChatbotFlow.tsx:200-260 | on a one-line document the keyword pass is a single line step |
| LabExamples.OneLineProximity | src/components/ChatbotFlow.tsx:263-280 | on a one-line document the proximity pass has no following line to read and changes nothing |
| LabExamples.HdlReadingStep | src/components/ChatbotFlow.tsx:226-238 | an HDL label line holding 45, and matching no other rule, stores HDL 45 |
| LabExamples.HdlLineOnly | src/components/ChatbotFlow.tsx:226-238 | a line only the HDL keyword rule recognises is stored by the line passes but not counted |
| LabExamples.SmallNumberOffer | src/components/ChatbotFlow.tsx:371-400 | a number below 90 is offered as neither total cholesterol nor blood pressure |
| LabExamples.HdlOnlyTextPasses | src/components/ChatbotFlow.tsx:285-440 | the text passes add nothing to HDL 45 and count nothing |
| LabExamples.BroadKeeps | src/components/ChatbotFlow.tsx:285-358 | the broad pass changes nothing when its total and systolic patterns find nothing and HDL is set |
| LabExamples.OfferKeeps | src/components/ChatbotFlow.tsx:162 | an offer that only names fields already set changes nothing |
| LabExamples.ContextKeeps | src/components/ChatbotFlow.tsx:361-414 | the context pass changes nothing when its only number is below 90 and HDL is set |
| LabExamples.FinalKeeps | src/components/ChatbotFlow.tsx:417-440 | the last resort changes nothing when its patterns find nothing |
| LabExamples.HdlOnlyRecognisedNotCounted | src/components/ChatbotFlow.tsx:145-442 | on `HDL 45` the extractor ends with HDL 45 stored and `foundValues` at 0 |
| ChatbotFlow.InitialStep | src/components/ChatbotFlow.tsx:36-41 | the chatbot opens on `pending` iff an assessment is pending. Otherwise it opens on the new-assessment prompt iff there are completed assessments and consent, on `age` iff there is consent and nothing completed, and on `intro` iff there is no consent |
| ChatbotFlow.ValidateField | src/components/ChatbotFlow.tsx:52-76 | a field with a range rejects a missing, zero or out-of-range value with its own message; fields without a range never fail |
| ChatbotFlow.CheckOne | src/components/ChatbotFlow.tsx:526-549 | one `if … errors.push` appends the check's message exactly when the check fails |
| ChatbotFlow.ValidateAssessmentData | src/components/ChatbotFlow.tsx:523-552 | the error list is the messages of the failing checks, in the source's order |
| ChatbotFlow.ValidationErrorsMembers | src/components/ChatbotFlow.tsx:523-552 | every failing check is reported, and there are at most eight errors |
| ChatbotFlow.ValidationEmptyIff | src/components/ChatbotFlow.tsx:523-552 | no errors iff age, systolic pressure and both cholesterols are in range, gender and race are given, and smoker and diabetes are defined |
| ChatbotFlow.UncheckedFieldsIgnored | src/components/ChatbotFlow.tsx:523-552 | family history, high blood pressure and the medication flags never affect the errors |
| ChatbotFlow.FieldAgreesWithRecord | src/components/ChatbotFlow.tsx:52-76 | the field validator and the record validator accept the same numeric values |
| ChatbotFlow.FirstRouteNone | src/components/ChatbotFlow.tsx:554-571 | reference: no route is taken iff no keyword is mentioned |
| ChatbotFlow.FirstRouteFirst | src/components/ChatbotFlow.tsx:554-571 | reference: the route taken is that of the first keyword mentioned |
| ChatbotFlow.ValidationErrorStepRoutes | src/components/ChatbotFlow.tsx:554-571 | `handleValidationError` goes to the step of the first mentioned keyword in priority order, and stays put otherwise |
| ChatbotFlow.AgeErrorLeadsToAge | src/components/ChatbotFlow.tsx:556-557 | an age error on screen always leads back to the age step |
| ChatbotFlow.FormSubmitFollowsOrder | src/components/ChatbotFlow.tsx:573-598 | an answered question moves to the next in the questionnaire's order, two ahead after a "no" to high blood pressure (recording `bpMedication = false`); an unanswered one stays put |
| ChatbotFlow.FormSubmitOtherSteps | src/components/ChatbotFlow.tsx:599-601 | steps outside the question sequence, `review` included, keep the progress |
| ChatbotFlow.AfterUpdate | src/components/ChatbotFlow.tsx:488-489 | after an update the field holds the new value |
| ChatbotFlow.AutoAdvanceMatchesSubmit | src/components/ChatbotFlow.tsx:494-519 | answering the current question (other than age) in a new assessment lands where submitting after that answer would |
| ChatbotFlow.UpdateStaysPut | src/components/ChatbotFlow.tsx:495-518 | answering another field, or while editing, stores the value and keeps the step |
| ChatbotFlow.ClearFieldErrors | src/components/ChatbotFlow.tsx:492 | exactly the errors that do not mention the field name, in any case, are kept |
| ChatbotFlow.ClearFieldErrorsAppend | src/components/ChatbotFlow.tsx:492 | filtering distributes over concatenation, so kept errors stay in their order with their repeats |
| ChatbotFlow.ClearFieldErrorsOne | src/components/ChatbotFlow.tsx:492 | a single error is kept exactly when it does not mention the field |
| ChatbotFlow.ReadErrorMessage | src/components/ChatbotFlow.tsx:454-464 | the catch message is one of the four read-error messages |
| ChatbotFlow.ReadErrorPerReader | src/components/ChatbotFlow.tsx:101-138 | each reader's failure is reported under its own kind of file |
| ChatbotFlow.ReadErrorUnsupported | src/components/ChatbotFlow.tsx:455-465 | an unsupported type gets the Word message when its type mentions `word`, and the generic one otherwise |
| ChatbotFlow.MergeLabValues | src/components/ChatbotFlow.tsx:444 | merging the extracted values changes only the three lab fields |
| ChatbotFlow.MergeSetsFound | src/components/ChatbotFlow.tsx:444 | a stored lab value replaces the answer, and an unset one keeps the old answer |
| ChatbotFlow.FoundItems | src/components/ChatbotFlow.tsx:445-448 | the message lists exactly one item per field holding a value |
| ChatbotFlow.MergedValuesPlausible | src/components/ChatbotFlow.tsx:442-450 | when values were counted, the record takes the plausible extracted values and the message lists at least one |
| ChatbotFlow.TextPlainReader | src/components/ChatbotFlow.tsx:134 | a `text/plain` file is read as text |
| ChatbotFlow.HdlOnlyFileDiscarded | src/components/ChatbotFlow.tsx:442-453 | a text file holding `HDL 45` leaves the record untouched and shows the nothing-found message |
| ChatbotFlow.ReadLabFile | src/components/ChatbotFlow.tsx:98-464 | reading the file computes the outcome specification: reader, extraction, merge or message |
| ChatbotFlow.Chatbot.constructor | src/components/ChatbotFlow.tsx:36-84 | the mounted component: on its initial step with no answers, or, when an assessment is edited, on the age question with that assessment's answers; no errors and no message either way |
| ChatbotFlow.Chatbot.UpdateAssessmentData | src/components/ChatbotFlow.tsx:488-521 | the new step and answers are those of the update with its auto-advance, and the field's errors are cleared |
| ChatbotFlow.Chatbot.HandleFormSubmit | src/components/ChatbotFlow.tsx:573-602 | the new progress is the guarded advance, and the assessment is submitted exactly from `review` |
| ChatbotFlow.Chatbot.HandleValidationError | src/components/ChatbotFlow.tsx:554-571 | the step becomes the routed step, and nothing else changes |
| ChatbotFlow.Chatbot.ParseLabFile | src/components/ChatbotFlow.tsx:94-467 | the answers and the message become the parse outcome, and parsing ends |
| ChatbotFlow.Chatbot.StartParsing | src/components/ChatbotFlow.tsx:94-96 | the upload starts: parsing is on and the previous message is cleared, nothing else changes |
| ChatbotFlow.Chatbot.FinishParsing | src/components/ChatbotFlow.tsx:442-466 | the outcome's answers and message are stored and parsing is off on every path |
| AssessmentResults.ResultsRiskColor | src/components/AssessmentResults.tsx:21-32 | the colour is the palette of the category's band: low, borderline, intermediate, high and everything else |
| AssessmentResults.RiskColorIgnoresCase | src/components/AssessmentResults.tsx:22 | the colour depends on the category only up to letter case |
| AssessmentResults.ShouldShowCardiologistSearch | src/components/AssessmentResults.tsx:34 | the search is offered iff a recommendation exists whose lower-cased text contains `requires-discussion` |
| AssessmentResults.SearchShownForMarker | src/components/AssessmentResults.tsx:34 | the marker is found in any case and anywhere in the text |
| AssessmentResults.ResponseShape | src/components/AssessmentResults.tsx:60-74 | reading throws iff the first element of a non-empty array is null. A provider list found is truthy. No list means none of the three shapes holds |
| AssessmentResults.WrappedExcludesArrays | src/components/AssessmentResults.tsx:64-65 | a `providers` object is never an array, and its list is taken |
| AssessmentResults.NamedArrayFirst | src/components/AssessmentResults.tsx:60-61 | an array whose first element has a name is itself the list, even if it also has providers |
| AssessmentResults.NestedWhenUnnamed | src/components/AssessmentResults.tsx:68-69 | the nested list is taken when the first element has no name |
| AssessmentResults.SearchResult | src/components/AssessmentResults.tsx:39-80 | no error iff the reply is ok and holds a provider shape, and then the list is that shape's. Otherwise the list is empty and the error is one of the three messages |
| AssessmentResults.EmptyProvidersNoMessage | src/components/AssessmentResults.tsx:64-65 | an empty `providers` array is an empty list without a message |
| AssessmentResults.ResultsSearch.constructor | src/components/AssessmentResults.tsx:13-17 | nothing typed, no list, no search run |
| AssessmentResults.ResultsSearch.SetZipCode | src/components/AssessmentResults.tsx:13 | the ZIP changes and nothing else |
| AssessmentResults.ResultsSearch.SearchCardiologists | src/components/AssessmentResults.tsx:36-85 | an empty ZIP does nothing. Otherwise the list and error are the search result, and the search ends completed and not running |
| AssessmentResults.Underscores | src/components/AssessmentResults.tsx:219 | every underscore becomes a space, and nothing else changes |
| AssessmentResults.CapitaliseWords | src/components/AssessmentResults.tsx:220 | exactly the characters that start a word are upper-cased |
| AssessmentResults.UpperKeepsWordChar | src/components/AssessmentResults.tsx:220 | upper-casing keeps word characters word characters |
| AssessmentResults.CapitaliseWordsCapitalises | src/components/AssessmentResults.tsx:220 | afterwards no word starts with a lower-case letter |
| AssessmentResults.TrimKeepsCapitals | src/components/AssessmentResults.tsx:221 | trimming keeps every word capitalised |
| AssessmentResults.SliceWordStart | src/components/AssessmentResults.tsx:220-221 | a word start inside a slice that follows only whitespace is a word start of the whole heading |
| AssessmentResults.SpaceIsNoWordChar | src/components/AssessmentResults.tsx:220 | whitespace is not a word character, so it never starts a word |
| AssessmentResults.TrimKeepsAbsent | src/components/AssessmentResults.tsx:221 | trimming adds no character that was not there |
| AssessmentResults.CapitalisedHasNoUnderscore | src/components/AssessmentResults.tsx:219-220 | no underscore is left after underscores become spaces and words are capitalised |
| AssessmentResults.FormatCategoryNameShape | src/components/AssessmentResults.tsx:218-222 | a heading has no underscore, every word is capitalised, and it is trimmed |
| AssessmentResults.FormatCategoryNameIdempotent | src/components/AssessmentResults.tsx:218-222 | formatting a heading twice is formatting it once |
| AssessmentResults.GetIconByRules | src/components/AssessmentResults.tsx:205-215 | the icon is that of the first keyword rule, in priority order, found in the lower-cased category |
| AssessmentResults.FirstIconWins | src/components/AssessmentResults.tsx:207-214 | reference: the first keyword found decides |
| AssessmentResults.FirstIconDefault | src/components/AssessmentResults.tsx:214 | the default icon iff no keyword occurs |
| AssessmentResults.GetIconIgnoresCase | src/components/AssessmentResults.tsx:206 | the icon depends on the category only up to letter case |
| AssessmentHistory.GreenBorder | src/components/AssessmentResults.tsx:23 | the low band's results classes are its history classes followed by its border class |
| AssessmentHistory.YellowBorder | src/components/AssessmentResults.tsx:24 | the same for the borderline band |
| AssessmentHistory.OrangeBorder | src/components/AssessmentResults.tsx:25 | the same for the intermediate band |
| AssessmentHistory.GrayBorder | src/components/AssessmentResults.tsx:30 | the same for an unrated category |
| AssessmentHistory.HistoryRiskColor | src/components/AssessmentHistory.tsx:31-42 | the history colour is the results colour without its border class |
| AssessmentHistory.HistoryColorIsResultsPrefix | src/components/AssessmentHistory.tsx:31-42 | the two views agree on the high band only, and the history colour is always a prefix of the results colour |
| AssessmentHistory.HistoryView | src/components/AssessmentHistory.tsx:68-104 | the editor wins over the results view, which wins over the list |
| AssessmentHistory.EntryActions | src/components/AssessmentHistory.tsx:142-233 | pending badge and edit iff pending, view iff not pending, delete always |
| AssessmentHistory.EditOrViewNotBoth | src/components/AssessmentHistory.tsx:168-233 | an entry offers exactly one of edit and view |
| AssessmentHistory.OrEmptyList | src/components/AssessmentHistory.tsx:59 | `data \|\| []`: a truthy body is kept, a falsy one becomes the empty list |
| AssessmentHistory.History.constructor | src/components/AssessmentHistory.tsx:13-19 | nothing selected, edited or awaiting deletion |
| AssessmentHistory.History.EditAssessment | src/components/AssessmentHistory.tsx:181 | the editor opens on the entry |
| AssessmentHistory.History.ViewAssessment | src/components/AssessmentHistory.tsx:209-217 | the entry is selected, and shown unless an editor is open |
| AssessmentHistory.History.CloseEditor | src/components/AssessmentHistory.tsx:73-87 | the editor closes; a refresh of the list is requested exactly for the two completion callbacks, not for the back button; nothing else changes |
| AssessmentHistory.History.CloseResults | src/components/AssessmentHistory.tsx:100 | the results view closes, and nothing else changes |
| AssessmentHistory.History.AskDelete | src/components/AssessmentHistory.tsx:188 | the entry awaits confirmation |
| AssessmentHistory.History.CancelDelete | src/components/AssessmentHistory.tsx:256 | the confirmation closes and nothing else changes |
| AssessmentHistory.History.SetZipCode | src/components/AssessmentHistory.tsx:291 | the ZIP input sets the ZIP and nothing else |
| AssessmentHistory.History.HandleDeleteConfirm | src/components/AssessmentHistory.tsx:21-29 | the delete callback gets the id. When it returns, the confirmation closes and the list refreshes; when it throws, nothing changes |
| AssessmentHistory.History.SearchCardiologists | src/components/AssessmentHistory.tsx:44-66 | an empty ZIP does nothing. An ok answer replaces the list by `data \|\| []`, anything else keeps it, and the search ends not running |
| Dashboard.HasPendingAssessment | src/components/Dashboard.tsx:127 | true iff some assessment's status is `pending_review` |
| Dashboard.HasConsent | src/components/Dashboard.tsx:128 | true iff some consent row's `consent_given` is exactly `true` |
| Dashboard.PendingAssessmentOpensPending | src/components/Dashboard.tsx:211-216 | a pending assessment makes the chatbot open on the pending step |
| Dashboard.RemoveId | src/components/Dashboard.tsx:70 | the filtered list holds exactly the entries whose id differs, and is no longer |
| Dashboard.RemoveIdAppend | src/components/Dashboard.tsx:70 | filtering keeps the order of the kept entries |
| Dashboard.RemoveIdAbsent | src/components/Dashboard.tsx:70 | a list without the id is unchanged |
| Dashboard.RemoveIdIdempotent | src/components/Dashboard.tsx:70 | deleting the same id twice is deleting it once |
| Dashboard.DashboardState.constructor | src/components/Dashboard.tsx:14-18 | the dashboard starts with the fetched lists, not loading, no error, no confirmation |
| Dashboard.DashboardState.RevokeButtonShown | src/components/Dashboard.tsx:224 | the revoke button shows iff some consent row says `true` |
| Dashboard.DashboardState.HandleDeleteAssessment | src/components/Dashboard.tsx:55-76 | with a user: a success removes every entry with the id, and a failure keeps the list and shows its message. Without a user nothing happens |
| Dashboard.DashboardState.RevokeConsentAndDeleteData | src/components/Dashboard.tsx:78-80 | only the confirmation opens |
| Dashboard.DashboardState.CancelRevoke | src/components/Dashboard.tsx:302-305 | the confirmation closes and the error is cleared; the lists and the loading flag are unchanged |
| Dashboard.DashboardState.HandleRevokeConfirm | src/components/Dashboard.tsx:82-125 | assessments are deleted first, and consent only after that succeeds. Both lists are emptied and the confirmation closes only when both succeed; the first failure leaves its message |
| Dashboard.RevokedStartsAtIntro | src/components/Dashboard.tsx:211-216 | after a full revoke the chatbot starts at the intro |
| PasswordRules.ScanClasses | src/components/ResetPasswordPage.tsx:33-36 | each class flag holds iff some character of that class occurs |
| PasswordRules.ValidatePassword | src/components/ResetPasswordPage.tsx:31-46 | at least 8 characters, an upper, a lower, a digit and a special character, each flag iff, and valid iff all five |
| PasswordRules.StrongExtends | src/components/ResetPasswordPage.tsx:31-46 | appending characters never weakens a strong password |
| PasswordRules.NoSpecialIsWeak | src/components/ResetPasswordPage.tsx:36 | a password without a special character is weak, however long |
| PasswordRules.SubmitGate | src/components/ResetPasswordPage.tsx:55-65 | a mismatch is reported first, then weakness, else the update is sent |
| PasswordRules.EnabledSubmitSends | src/components/ResetPasswordPage.tsx:218 | a submit the button allows always reaches the update |
| PasswordRules.UpdateError | src/components/ResetPasswordPage.tsx:68-80 | no error after a successful update, the server's message after a refusal, the generic message after a throw |
| PasswordRules.SubmitError | src/components/ResetPasswordPage.tsx:50-83 | the error after a submit is the mismatch message, the weakness message, or the update's error, by the gate |
| PasswordRules.SentPassword | src/components/ResetPasswordPage.tsx:68 | the new password is sent iff it matches its confirmation and is strong |
| PasswordRules.MismatchReportedFirst | src/components/ResetPasswordPage.tsx:55-59 | mismatched passwords are reported as such whatever their strength, and nothing is sent |
| ResetPassword.ScreenOf | src/components/ResetPasswordPage.tsx:85-102 | the success screen iff success; the invalid-link screen iff no success, no valid session and an error |
| ResetPassword.ResetPasswordPage.constructor | src/components/ResetPasswordPage.tsx:7-14 | empty fields, no error, no success, no session yet |
| ResetPassword.ResetPasswordPage.CheckSession | src/components/ResetPasswordPage.tsx:17-29 | a session validates the page; its absence shows the invalid-link error and screen |
| ResetPassword.ResetPasswordPage.SetNewPassword | src/components/ResetPasswordPage.tsx:7 | only the new password changes |
| ResetPassword.ResetPasswordPage.SetConfirmPassword | src/components/ResetPasswordPage.tsx:8 | only the confirmation changes |
| ResetPassword.ResetPasswordPage.HandleSubmit | src/components/ResetPasswordPage.tsx:50-83 | the password sent, the error and success follow the shared submit rules, and loading ends |
| PasswordChangeModal.ModalScreenOf | src/components/PasswordChangeModal.tsx:89-91 | a closed dialog shows nothing; an open one shows the confirmation iff it succeeded |
| PasswordChangeModal.PasswordChangeDialog.constructor | src/components/PasswordChangeModal.tsx:11-19 | empty fields, no error, no success |
| PasswordChangeModal.PasswordChangeDialog.SetPasswords | src/components/PasswordChangeModal.tsx:129-132 | the two rendered inputs (new, confirm) set their fields; the current-password state, which has no input, and everything else are unchanged |
| PasswordChangeModal.PasswordChangeDialog.HandleSubmit | src/components/PasswordChangeModal.tsx:41-78 | the shared submit rules with the modal's own messages. A success clears all three fields, and otherwise they stay; the current password is never consulted |
| PasswordChangeModal.PasswordChangeDialog.SuccessTimerFires | src/components/PasswordChangeModal.tsx:68-71 | the success timer hides the confirmation |
| PasswordChangeModal.PasswordChangeDialog.HandleClose | src/components/PasswordChangeModal.tsx:80-87 | closing clears the fields, the error and success |
| AuthModal.Toggled | src/components/AuthModal.tsx:59-68 | from the reset form back to sign in, otherwise sign in and sign up swap; never the reset form |
| AuthModal.ToggleTwice | src/components/AuthModal.tsx:59-68 | toggling twice from sign in or sign up returns to it |
| AuthModal.AuthError | src/components/AuthModal.tsx:21-57 | no error shown iff the call succeeded or failed with an empty message |
| AuthModal.AuthDialog.constructor | src/components/AuthModal.tsx:11-18 | the dialog opens on sign in, empty |
| AuthModal.AuthDialog.CurrentMode | src/components/AuthModal.tsx:168 | the reset form exactly when its flag is set; in a valid state, sign in exactly when the sign-in flag is set |
| AuthModal.AuthDialog.SetCredentials | src/components/AuthModal.tsx:13-14 | only the email and password change, and the state stays valid |
| AuthModal.AuthDialog.ToggleMode | src/components/AuthModal.tsx:59-68 | the mode becomes the toggled mode and messages clear; never both reset form and sign in |
| AuthModal.AuthDialog.ShowForgotPassword | src/components/AuthModal.tsx:70-75 | the reset form shows and messages clear |
| AuthModal.AuthDialog.HandleSubmit | src/components/AuthModal.tsx:21-57 | the request follows the mode, and the mode and validity are kept. Sign in and sign up close the dialog on success and forget the credentials; the reset form stays open with its success message. The error is the reply's, and loading ends |
| Carousel.NextIndex | src/components/TestimonialsCarousel.tsx:68-71 | the next index stays among the six and wraps from the last to the first |
| Carousel.PreviousIndex | src/components/TestimonialsCarousel.tsx:63-66 | the previous index stays among the six and wraps from the first to the last |
| Carousel.NextPreviousInverse | src/components/TestimonialsCarousel.tsx:63-71 | next and previous undo each other |
| Carousel.NextCycle | src/components/TestimonialsCarousel.tsx:53-61 | six ticks come back to the same testimonial |
| Carousel.TestimonialsCarousel.constructor | src/components/TestimonialsCarousel.tsx:50-51 | the first testimonial, auto-playing |
| Carousel.TestimonialsCarousel.Tick | src/components/TestimonialsCarousel.tsx:53-61 | a tick advances only while auto-playing and keeps the index valid |
| Carousel.TestimonialsCarousel.GoToPrevious | src/components/TestimonialsCarousel.tsx:63-66 | previous testimonial, auto-play stops |
| Carousel.TestimonialsCarousel.GoToNext | src/components/TestimonialsCarousel.tsx:68-71 | next testimonial, auto-play stops |
| Carousel.TestimonialsCarousel.SelectDot | src/components/TestimonialsCarousel.tsx:139-142 | the chosen testimonial, auto-play stops |
| Faq.Toggled | src/components/FAQ.tsx:42-44 | toggling closes the open question, or opens the one clicked |
| Faq.SingleOpen | src/components/FAQ.tsx:78 | at most one answer is shown |
| Faq.ToggleTwice | src/components/FAQ.tsx:42-44 | toggling the same question twice restores the state when nothing else was open |
| Faq.ToggleOther | src/components/FAQ.tsx:42-44 | clicking another question opens it and closes the open one |
| Faq.FaqList.constructor | src/components/FAQ.tsx:40 | all answers closed |
| Faq.FaqList.ToggleFaq | src/components/FAQ.tsx:42-44 | the open index is toggled, and only the clicked question can be shown |
| CardiologistSearch.ZipLengthOnly | src/components/CardiologistSearch.tsx:21-24 | the ZIP gate passes any input of five or more characters, digits or not |
| CardiologistSearch.ProvidersOf | src/components/CardiologistSearch.tsx:37 | `data?.providers ?? []` is the providers field when the reply has a non-null one, and the empty list otherwise |
| CardiologistSearch.InvocationError | src/components/CardiologistSearch.tsx:28-49 | no error iff the call returned data; an error object's empty message becomes "Invocation failed"; a thrown error shows its message or "Something went wrong" |
| CardiologistSearch.EmptyMessagesDiffer | src/components/CardiologistSearch.tsx:32-49 | an empty error-object message becomes "Invocation failed", but an empty thrown message stays empty |
| CardiologistSearch.ResultLabel | src/components/CardiologistSearch.tsx:103 | "result" iff exactly one provider |
| CardiologistSearch.SearchForm.constructor | src/components/CardiologistSearch.tsx:12-15 | empty ZIP, no providers, no error |
| CardiologistSearch.SearchForm.SetZip | src/components/CardiologistSearch.tsx:12 | only the ZIP changes |
| CardiologistSearch.SearchForm.HandleSubmit | src/components/CardiologistSearch.tsx:17-53 | the list and error clear. A short ZIP stops with its message before any call; otherwise the call's providers or error are shown and loading ends |

## Left out

- Reading a file's contents is outside the model: OCR of images, PDF text extraction and Word
  document conversion (`src/components/ChatbotFlow.tsx:101-138`). The text a reader produces,
  or its failure, is the `readText` input of a `LabFile`.
- Remote calls are modelled only by their outcome, passed in as a reply parameter. This covers
  Supabase queries and deletes, the provider webhooks, `updatePassword`, `signIn`, `signUp`,
  `resetPasswordForEmail` and `functions.invoke`. The edge function
  `supabase/functions/cardiologist-search/index.ts` is not part of this model.
- Timers are not modelled as time:
  - The questionnaire's 100 ms auto-advance is taken as having fired at once.
  - The reset page's redirect after a success is left out.
  - The change-password success timer is the separate `SuccessTimerFires`.
  - The carousel's five-second interval is the separate `Tick`.
- `fetchAssessments`, `fetchConsentHistory`, `submitAssessment` and the dashboard's loading of
  data on mount are left out. They are remote reads and writes whose results enter as state.
- The questionnaire's `useEffect` that loads an edited assessment is taken as having run when
  the component mounts (`ChatbotFlow.Chatbot.constructor`). Running it again when the edited
  assessment changes later is left out: `editing` is a constant of the component.
- Strings are sequences of Unicode scalar values, not UTF-16 code units. Case folding is
  ASCII-only; the keywords the components look for are ASCII.
- Numbers in answers and JSON are integers. Fractional values, `NaN` and non-numeric strings
  typed into number inputs are not modelled; a missing number is `undefined`.
- Rendering, `alert`, `console.log`, and navigation to other pages (the contact modal, the
  Google Maps link, `window.location`) are left out.
- Json.Prop: does not model the `length` property of arrays and strings, because the components
  only use `length` on values that are arrays by construction.
- Faq.ToggleTwice: the round trip is proved only when no other question was open, because
  toggling another question closes the one that was open, which `Faq.ToggleOther` states.
- The provider lists are JSON values, not typed provider records. Their fields matter only for
  rendering.
- Text.SplitOnNewline: its own contract states only the shape of the pieces. The round trips
  are `Text.SplitOnNewlineJoin` and `Text.JoinSplitOnNewline`.
- Text.TrimNonEmpty: its own contract states only bounds and the shape of each piece. What it
  keeps is fixed by `Text.TrimNonEmptyAppend`, `Text.TrimNonEmptyOne` and `Text.TrimNonEmptyKeeps`.
- Text.Lines: its own contract states only the shape of the lines. The round trip is
  `Text.LinesJoin`.
- Text.CollapseRuns: its own contract states only the shape of the result. The result is fixed by
  `Text.CollapseRunsAppend`, `Text.CollapseRunsBlank` and `Text.CollapseRunsOther`.
- Text.DigitsValue: its own contract states only the bound. Its value is fixed by
  `Text.DigitsValueAppend` and `Text.DigitsValueOne`; the round trip is `Text.DigitsValueRoundTrip`.
- Text.Join: its own contract covers one item. The general case is `Text.JoinAppend`.
- LabPatterns.KeywordEnd: its own contract states only bounds. What a keyword matches is stated
  by `KeywordEndAppend`, `KeywordEndWord`, `KeywordEndSpaces`, `KeywordEndAny` and
  `KeywordEndWordSpaces`.
- LabPatterns.MatchAt: its own contract states only bounds. What it matches and captures is
  `LabPatterns.MatchAtIff`, with `MatchAtGap` and `MatchAtNeedsDigit`.
- LabPatterns.MatchValues: its own contract states only the bound. What `matchAll` yields is
  `LabPatterns.MatchValuesEmptyIff` and `LabPatterns.MatchValuesLeftmost`.
- LabPatterns.ExactCholesterol: its own contract states only the bound. The exact line format is
  `LabPatterns.ExactCholesterolIff`.
- LabPatterns.ExactHdlCholesterol: its own contract states only the bound. The exact line format
  is `LabPatterns.ExactHdlCholesterolIff`.
- LabPatterns.LeadingNumber: its own contract states only the bound. Its value digit by digit is
  `LabPatterns.LeadingNumberStep`.
- LabPatterns.FirstSlashPair: its own contract states only the bound. Where the pair is found
  and what is read is `LabPatterns.FirstSlashPairFound` and `LabPatterns.FirstSlashPairLeftmost`.
- LabPatterns.Tokens: its own contract states only the shape of the tokens. Which tokens are
  found is `LabPatterns.TokensEmptyIff` and `LabPatterns.TokensLeftmost`.
- LabPatterns.ShortTokens: its own contract states only the shape of what is kept. Which tokens
  are kept is `LabPatterns.ShortTokensAppend` and `LabPatterns.ShortTokensOne`.
- LabPatterns.Substring: its own contract states only the length bound. The slice it returns is
  `LabPatterns.SubstringBetween`.
- LabExtractor.ContextNumbers: its own contract states only the shape of the numbers. They are
  `ShortTokens` of `Tokens` of the collapsed text, whose contents the lemmas about those two fix.
- AssessmentHistory.History.HandleDeleteConfirm: whether the parent's delete callback throws is
  a parameter. The callback itself is `Dashboard.DashboardState.HandleDeleteAssessment`.
