# Terminal prompt engine: a verified Dafny model

This project models the interaction engine of a Kotlin library for
interactive terminal prompts (KInquirer style). It covers five parts:

- **The key decoder.** It reads raw key codes from an unbuffered terminal and turns them into one of ten logical events, on two terminal families.
- **The four widgets.** List, multi-select checkbox, yes/no confirm and free-text input, each a state machine that consumes events, renders a view and yields a value. The input widget's password and number variants are included.
- **Pagination.** The cursor-and-window logic that the list and checkbox widgets share.
- **The repaint step.** It erases the previous view's lines before each new view.
- **Scenarios.** The documented checkbox and confirm scenarios are stated as lemmas and methods.

Each widget is modelled twice:

- a state datatype with a pure step function (`ListStep`, `CheckboxStep`, `ConfirmStep`, `InputStep`) and a left fold over event sequences;
- a class with the source's fields, whose `OnEvent` method is proved to make exactly that step and whose `OnEventSequence` loop is proved to make that fold.

Rendering yields a sequence of abstract segments: plain text, styled text, a line break, and a cursor move to the left. Views are not raw ANSI strings.

Modules and files:

| file | module | models |
|---|---|---|
| options.dfy | Options | optional values |
| events.dfy | Events | the event union, choices, documented key codes |
| decoder.dfy | Decoder | both reader handlers |
| view.dfy | View | segments, blank test, number formatting, joining |
| pagination.dfy | Pagination | cursor, window and informational line shared by list and checkbox |
| list_widget.dfy | ListWidget | the list widget |
| checkbox_widget.dfy | CheckboxWidget | the checkbox widget |
| checkbox_scenarios.dfy | CheckboxScenarios | the checkbox test scenarios |
| confirm_widget.dfy | ConfirmWidget | the confirm widget and its scenarios |
| input_widget.dfy | InputWidget | the input widget, password and number variants |
| ansi_output.dfy | AnsiOutput | the repaint step |

Three behaviours of the code that a reader of the widgets' descriptions may
not expect; the model follows the code:

- **Confirm.** A character other than y/Y/n/N leaves the answer unchanged. Every non-character event other than Left, Right and Enter sets it to no.
- **Input value.** The value is the buffer as soon as one exists, even after Backspace has emptied it. The default applies only before the first accepted keystroke. The descriptions of the default ("if no input is provided" at `InputComponent.kt:18`, "if none is provided" at `:39`) could also be read as covering an emptied buffer.
- **Input Space gate.** The model's step follows the intended behaviour, and the code as written is kept beside it. See "## Findings".

## Model

| member | source | states |
|---|---|---|
| Events.Variant | src/main/kotlin/xyz/malefic/scripting/core/Model.kt:18-80 | the event union has ten variants, and only `CharInput` has tag 9 |
| Events.EventUnionIsClosed | src/main/kotlin/xyz/malefic/scripting/core/Model.kt:18-80 | every tag below ten has an event; two events with the same tag other than `CharInput` are equal, because only `CharInput` carries data |
| Events.CharInputCarriesOneChar | src/main/kotlin/xyz/malefic/scripting/core/Model.kt:77-79 | `CharInput` events are equal exactly when their characters are |
| Events.DocumentedKeyCodes | src/main/kotlin/xyz/malefic/scripting/core/Model.kt:19-65 | the documented codes per family have 1 to 3 codes, and only arrows have three |
| Decoder.ArrowEvent | src/main/kotlin/xyz/malefic/scripting/core/ReaderHandler.kt:72-78 | the third code of an escape sequence gives `NotSupportedChar` exactly when it is outside 65..68 |
| Decoder.ReadEscValues | src/main/kotlin/xyz/malefic/scripting/core/ReaderHandler.kt:70-81 | after ESC it consumes 2 codes when the family's introducer follows and 1 otherwise, and never yields `CharInput` |
| Decoder.HandleInteraction | src/main/kotlin/xyz/malefic/scripting/core/ReaderHandler.kt:54-62 | one decode consumes 1 to 3 codes, and more than one exactly when the first code is ESC |
| Decoder.SingleCodeKeys | src/main/kotlin/xyz/malefic/scripting/core/ReaderHandler.kt:55-59 | the family's backspace code, 13, 32 and 12 decode to Backspace, Enter, Space and ClearScreen after one code |
| Decoder.ForeignBackspaceIsCharInput | src/main/kotlin/xyz/malefic/scripting/core/ReaderHandler.kt:94-102 | 8 is a character on the new family, and 127 is a character on the old one |
| Decoder.ArrowSequences | src/main/kotlin/xyz/malefic/scripting/core/ReaderHandler.kt:70-81 | ESC, introducer, 65..68 give Up, Down, Right, Left, and any other third code gives `NotSupportedChar`; all consume three codes |
| Decoder.MalformedEscape | src/main/kotlin/xyz/malefic/scripting/core/ReaderHandler.kt:80 | ESC not followed by the introducer gives `NotSupportedChar` after two codes, end of stream included |
| Decoder.OtherCodesAreCharInput | src/main/kotlin/xyz/malefic/scripting/core/ReaderHandler.kt:61 | every other code is a one-code `CharInput` of that character |
| Decoder.ProfilesAgree | src/main/kotlin/xyz/malefic/scripting/core/ReaderHandler.kt:94-121 | the two families decode alike when the first code is none of ESC, 8 and 127 |
| Decoder.DecodeIsLocal | src/main/kotlin/xyz/malefic/scripting/core/ReaderHandler.kt:54-81 | a decode depends only on the codes it consumes, so no state leaks between calls |
| Decoder.Encode | src/main/kotlin/xyz/malefic/scripting/core/ReaderHandler.kt:54-81 | the inverse of the decoder: 1 to 3 valid key codes per encodable event |
| Decoder.EncodeThenDecode | src/main/kotlin/xyz/malefic/scripting/core/ReaderHandler.kt:54-81 | decoding an event's encoding gives back the event, consuming exactly the encoding, whatever follows |
| Decoder.DecodeThenEncode | src/main/kotlin/xyz/malefic/scripting/core/ReaderHandler.kt:54-81 | re-encoding a decoded event gives back the consumed codes, except for the lossy `NotSupportedChar` |
| Decoder.DecoderMatchesDocumentation | src/main/kotlin/xyz/malefic/scripting/core/Model.kt:19-65 | every key code documented on an event decodes to that event |
| Decoder.OldClearScreenIsUndocumented | src/main/kotlin/xyz/malefic/scripting/core/Model.kt:55-59 | the old family's ClearScreen code is undocumented, but the decoder still maps 12 to it |
| Decoder.DecodeAll | src/main/kotlin/xyz/malefic/scripting/KInquirer.kt:25-29 | repeated decoding yields at most one event per code, and the first event is the one a single decode gives |
| Decoder.EncodeAll | src/main/kotlin/xyz/malefic/scripting/KInquirer.kt:25-29 | an event sequence encodes to valid key codes, at least one per event |
| Decoder.DecodeAllOfEncodeAll | src/main/kotlin/xyz/malefic/scripting/KInquirer.kt:25-29 | decoding the encoding of an event sequence gives back the sequence |
| View.NatToString | src/main/kotlin/xyz/malefic/scripting/components/CheckboxComponent.kt:96 | a natural number prints as decimal digits with no leading zero, and reading them back gives the number |
| View.IntToString | src/main/kotlin/xyz/malefic/scripting/components/CheckboxComponent.kt:102 | an integer prints with a leading '-' exactly when negative, followed by digits that read back as its magnitude |
| View.Join | src/main/kotlin/xyz/malefic/scripting/components/CheckboxComponent.kt:160 | joining no parts gives "", and joining one part gives that part |
| View.JoinSnoc | src/main/kotlin/xyz/malefic/scripting/components/CheckboxComponent.kt:160 | joining is appending the parts one at a time, each after a separator but the first |
| View.JoinAppend | src/main/kotlin/xyz/malefic/scripting/components/CheckboxComponent.kt:160 | joining two non-empty runs of parts puts exactly one separator between the joined runs |
| Pagination.OriginValid | src/main/kotlin/xyz/malefic/scripting/components/ListComponent.kt:33-35 | the initial cursor and window are valid exactly when there is a choice and the page size is at least one |
| Pagination.Up | src/main/kotlin/xyz/malefic/scripting/components/ListComponent.kt:65-70 | Up keeps the window invariant, moves the cursor up one unless it is at the top, and moves the window back by at most one, only to follow the cursor |
| Pagination.Down | src/main/kotlin/xyz/malefic/scripting/components/ListComponent.kt:71-76 | Down keeps the window invariant, moves the cursor down one unless it is on the last choice, and moves the window forward by one only when the cursor leaves the page |
| Pagination.FullPage | src/main/kotlin/xyz/malefic/scripting/components/ListComponent.kt:136 | a valid window shows the cursor and min(pageSize, count) rows |
| Pagination.AllFitNeverScrolls | src/main/kotlin/xyz/malefic/scripting/components/ListComponent.kt:73-74 | when the page holds every choice, the window start stays 0 |
| Pagination.InfoMessage | src/main/kotlin/xyz/malefic/scripting/components/ListComponent.kt:38-42 | the informational line, set the same way by both widgets, is non-blank exactly when the page is smaller than the list |
| Pagination.PageRowsShowWindow | src/main/kotlin/xyz/malefic/scripting/components/ListComponent.kt:132-141 | the row loop over all indices with its visibility test yields exactly the window's rows, in order |
| ListWidget.ListStep | src/main/kotlin/xyz/malefic/scripting/components/ListComponent.kt:63-84 | Up and Down apply `Pagination.Up` and `Pagination.Down` and are the only events that change the window; the window invariant is kept, cursor and window move by at most one, and the prompt ends exactly on Enter |
| ListWidget.ListRun | src/main/kotlin/xyz/malefic/scripting/components/ListComponent.kt:63-84 | any event sequence keeps the window valid, and the prompt is still interacting exactly when it was before and no event was Enter |
| ListWidget.ListRunSnoc | src/test/kotlin/xyz/malefic/scripting/TestHelper.kt:12-16 | handling a sequence and then one more event is handling the longer sequence |
| ListWidget.RenderListShape | src/main/kotlin/xyz/malefic/scripting/components/ListComponent.kt:91-124 | while interacting the view is header, hint, the window's rows and the info line when paginated; once done it is header and the chosen name |
| ListWidget.ListComponent.constructor | src/main/kotlin/xyz/malefic/scripting/components/ListComponent.kt:33-42 | the widget starts at cursor 0 and window 0, interacting, with a valid window |
| ListWidget.ListComponent.Value | src/main/kotlin/xyz/malefic/scripting/components/ListComponent.kt:49 | the value is the data of the choice under the cursor |
| ListWidget.ListComponent.OnEvent | src/main/kotlin/xyz/malefic/scripting/components/ListComponent.kt:63-84 | the field updates make exactly one `ListStep` and keep the object valid |
| ListWidget.ListComponent.OnEventSequence | src/test/kotlin/xyz/malefic/scripting/TestHelper.kt:12-16 | handling events one by one makes exactly the `ListRun` fold |
| CheckboxWidget.SelectedIndices | src/main/kotlin/xyz/malefic/scripting/components/CheckboxComponent.kt:106-107 | the selected indices in strictly ascending order, each in range and selected, and every selected index in range appears |
| CheckboxWidget.SelectedIndicesCount | src/main/kotlin/xyz/malefic/scripting/components/CheckboxComponent.kt:106-107 | the ascending list has exactly as many entries as there are selected indices in range |
| CheckboxWidget.SelectedFromStep | src/main/kotlin/xyz/malefic/scripting/components/CheckboxComponent.kt:106-107 | the selected indices from i on number those from i + 1 on, plus one when i is selected |
| CheckboxWidget.SelectedChoices | src/main/kotlin/xyz/malefic/scripting/components/CheckboxComponent.kt:158-159 | the selected choices, in choice order |
| CheckboxWidget.SelectedData | src/main/kotlin/xyz/malefic/scripting/components/CheckboxComponent.kt:105-108 | one datum per selected choice |
| CheckboxWidget.SelectedDataCount | src/main/kotlin/xyz/malefic/scripting/components/CheckboxComponent.kt:105-108 | the completed value has as many entries as the selection has indices |
| CheckboxWidget.CheckboxStep | src/main/kotlin/xyz/malefic/scripting/components/CheckboxComponent.kt:72-115 | a step keeps the state well formed and the selection within the maximum. Up and Down apply `Pagination.Up` and `Pagination.Down`. Only Space changes the selection and only Up/Down the window. Every event other than Space and Enter leaves the error message empty. The prompt ends only on Enter with enough selections, and the value changes only then, to the selected data |
| CheckboxWidget.SpaceToggles | src/main/kotlin/xyz/malefic/scripting/components/CheckboxComponent.kt:87-99 | Space removes a selected cursor index, adds an unselected one when below the maximum, and otherwise sets "max selection: <max>" and keeps the selection |
| CheckboxWidget.EnterChecksMinimum | src/main/kotlin/xyz/malefic/scripting/components/CheckboxComponent.kt:100-110 | below the minimum, Enter sets "min selection: <min>" and stays interacting; otherwise it ends with the selected data |
| CheckboxWidget.OtherEventsOnlyClearError | src/main/kotlin/xyz/malefic/scripting/components/CheckboxComponent.kt:72-114 | every event other than Up, Down, Space and Enter only clears the error |
| CheckboxWidget.CheckboxRun | src/main/kotlin/xyz/malefic/scripting/components/CheckboxComponent.kt:72-115 | any event sequence keeps the state well formed and the selection within the maximum |
| CheckboxWidget.CheckboxRunSnoc | src/test/kotlin/xyz/malefic/scripting/TestHelper.kt:12-16 | handling a sequence and then one more event is handling the longer sequence |
| CheckboxWidget.ValueEmptyUntilCompletion | src/main/kotlin/xyz/malefic/scripting/components/CheckboxComponent.kt:100-110 | while the prompt stays open the value stays empty |
| CheckboxWidget.NoResumeAfterCompletion | src/main/kotlin/xyz/malefic/scripting/components/CheckboxComponent.kt:100-110 | once completed, no event sequence reopens the prompt |
| CheckboxWidget.RenderCheckboxShape | src/main/kotlin/xyz/malefic/scripting/components/CheckboxComponent.kt:122-167 | while interacting the view is header, hint, the window's rows, the info line when paginated and the error when not blank |
| CheckboxWidget.CompletedViewMatchesValue | src/main/kotlin/xyz/malefic/scripting/components/CheckboxComponent.kt:100-110 | after a completing Enter the view is the header and the selected display names joined by ", ", and the value holds the data of the same choices in the same order |
| CheckboxWidget.CheckboxComponent.constructor | src/main/kotlin/xyz/malefic/scripting/components/CheckboxComponent.kt:39-51 | the widget starts with no selection, cursor and window 0, interacting, an empty value and no error |
| CheckboxWidget.CheckboxComponent.Value | src/main/kotlin/xyz/malefic/scripting/components/CheckboxComponent.kt:58 | the value is the list fixed by the last successful Enter |
| CheckboxWidget.CheckboxComponent.OnEvent | src/main/kotlin/xyz/malefic/scripting/components/CheckboxComponent.kt:72-115 | the in-place updates of cursor, window, selected set, value and error make exactly one `CheckboxStep` |
| CheckboxWidget.CheckboxComponent.OnEventSequence | src/test/kotlin/xyz/malefic/scripting/TestHelper.kt:12-16 | handling events one by one makes exactly the `CheckboxRun` fold |
| CheckboxScenarios.SampleView | src/main/kotlin/xyz/malefic/scripting/components/CheckboxComponent.kt:122-154 | the sample prompt shows two rows, the info line and the error while interacting |
| CheckboxScenarios.HintNotBlank | src/test/kotlin/xyz/malefic/scripting/CheckboxTest.kt:32-55 | the sample hint is not blank, so the view shows it |
| CheckboxScenarios.SampleRows | src/test/kotlin/xyz/malefic/scripting/CheckboxTest.kt:32-55 | every reachable page of the sample shows exactly two consecutive rows |
| CheckboxScenarios.ScrollDownTwoSteps | src/test/kotlin/xyz/malefic/scripting/CheckboxTest.kt:32-55 | two Downs show B and C, with the cursor on C |
| CheckboxScenarios.ScrollDownToTheEnd | src/test/kotlin/xyz/malefic/scripting/CheckboxTest.kt:57-84 | six Downs stop at D and show C and D |
| CheckboxScenarios.ScrollDownAndBackUp | src/test/kotlin/xyz/malefic/scripting/CheckboxTest.kt:86-116 | four Downs and five Ups return to A and B, with the cursor on A |
| CheckboxScenarios.MaxLimitState | src/test/kotlin/xyz/malefic/scripting/CheckboxTest.kt:118-126 | a third Space is refused with "max selection: 2" |
| CheckboxScenarios.SelectionMaxLimit | src/test/kotlin/xyz/malefic/scripting/CheckboxTest.kt:118-156 | the view after a refused third selection, with B checked and the error line |
| CheckboxScenarios.SelectionMinLimit | src/test/kotlin/xyz/malefic/scripting/CheckboxTest.kt:158-186 | Enter with nothing selected stays open and shows "min selection: 1" |
| CheckboxScenarios.FirstTwoIndices | src/test/kotlin/xyz/malefic/scripting/CheckboxTest.kt:188-197 | selecting A and B gives the ascending indices 0, 1 |
| CheckboxScenarios.FirstTwoOfFour | src/main/kotlin/xyz/malefic/scripting/components/CheckboxComponent.kt:105-108 | when the selected indices are 0 and 1, the value is the first two choices' data in that order |
| CheckboxScenarios.FirstTwoData | src/test/kotlin/xyz/malefic/scripting/CheckboxTest.kt:188-197 | selecting A and B yields their data "1", "2" in choice order |
| CheckboxScenarios.SelectFirstTwo | src/test/kotlin/xyz/malefic/scripting/CheckboxTest.kt:188-197 | Space, Down, Space selects A and B and leaves the cursor on B, still interacting |
| CheckboxScenarios.SelectionValue | src/test/kotlin/xyz/malefic/scripting/CheckboxTest.kt:188-197 | Space, Down, Space, Enter completes with ["1", "2"] |
| CheckboxScenarios.CustomState | src/test/kotlin/xyz/malefic/scripting/CheckboxTest.kt:199-243 | with custom options, Space then Down selects A and moves the cursor to B |
| CheckboxScenarios.CustomViewOptions | src/test/kotlin/xyz/malefic/scripting/CheckboxTest.kt:199-243 | caller glyphs replace the defaults, and an unbounded page shows no info line |
| ConfirmWidget.DecisionCases | src/main/kotlin/xyz/malefic/scripting/components/ConfirmComponent.kt:40-53 | exactly Left, 'y' and 'Y' say yes; exactly Enter and the other characters say nothing; every other event says no |
| ConfirmWidget.ConfirmStep | src/main/kotlin/xyz/malefic/scripting/components/ConfirmComponent.kt:40-53 | the answer becomes the one the event expresses, or stays; the prompt ends exactly on Enter |
| ConfirmWidget.StepIdempotent | src/main/kotlin/xyz/malefic/scripting/components/ConfirmComponent.kt:40-53 | repeating an event changes nothing more |
| ConfirmWidget.ConfirmRun | src/main/kotlin/xyz/malefic/scripting/components/ConfirmComponent.kt:40-53 | a completed prompt stays completed |
| ConfirmWidget.ConfirmRunSnoc | src/test/kotlin/xyz/malefic/scripting/TestHelper.kt:12-16 | handling a sequence and then one more event is handling the longer sequence |
| ConfirmWidget.RunOutcome | src/main/kotlin/xyz/malefic/scripting/components/ConfirmComponent.kt:40-53 | after any event sequence the answer is the last deciding event's, or the starting one, and the prompt is open exactly when no Enter came |
| ConfirmWidget.AnswerWord | src/main/kotlin/xyz/malefic/scripting/components/ConfirmComponent.kt:74-87 | the result word is "Yes" exactly for yes |
| ConfirmWidget.RenderShowsAnswer | src/main/kotlin/xyz/malefic/scripting/components/ConfirmComponent.kt:60-89 | while open the view brackets the current answer and does not end the line; once done it shows the answer word and a line break |
| ConfirmWidget.ConfirmComponent.constructor | src/main/kotlin/xyz/malefic/scripting/components/ConfirmComponent.kt:14-19 | the answer starts at the default, interacting |
| ConfirmWidget.ConfirmComponent.Value | src/main/kotlin/xyz/malefic/scripting/components/ConfirmComponent.kt:26 | the value is the current answer |
| ConfirmWidget.ConfirmComponent.IsInteracting | src/main/kotlin/xyz/malefic/scripting/components/ConfirmComponent.kt:33 | the interacting flag of the state |
| ConfirmWidget.ConfirmComponent.OnEvent | src/main/kotlin/xyz/malefic/scripting/components/ConfirmComponent.kt:40-53 | the field updates make exactly one `ConfirmStep` |
| ConfirmWidget.ConfirmComponent.OnEventSequence | src/test/kotlin/xyz/malefic/scripting/TestHelper.kt:12-16 | handling events one by one makes exactly the `ConfirmRun` fold |
| ConfirmWidget.DefaultViews | src/test/kotlin/xyz/malefic/scripting/ConfirmTest.kt:10-54 | a fresh prompt shows " Yes [No]" for default no and "[Yes] No " for default yes |
| ConfirmWidget.LeftThenEnter | src/test/kotlin/xyz/malefic/scripting/ConfirmTest.kt:56-87 | Left then Enter completes with yes and shows the highlighted "Yes" line |
| InputWidget.ValueOf | src/main/kotlin/xyz/malefic/scripting/components/InputComponent.kt:41 | the value is the default while no buffer exists, and the buffer afterwards |
| InputWidget.DropLast | src/main/kotlin/xyz/malefic/scripting/components/InputComponent.kt:66 | Backspace removes exactly the last character, and does nothing on an empty buffer |
| InputWidget.InputStep | src/main/kotlin/xyz/malefic/scripting/components/InputComponent.kt:55-83 | the error is "invalid input" exactly after Enter with an invalid value. The prompt ends exactly on Enter with a valid value. A buffer never disappears. Every buffer change removes the last character or appends the typed character with the filter's approval |
| InputWidget.KeystrokeEffects | src/main/kotlin/xyz/malefic/scripting/components/InputComponent.kt:65-78 | a character or Space is appended exactly when the filter accepts the extended buffer; Backspace drops the last character of an existing buffer; no other event touches the buffer |
| InputWidget.InputStepAsWritten | src/main/kotlin/xyz/malefic/scripting/components/InputComponent.kt:68-72 | Space as written: it appends whenever the filter accepts a lone space and otherwise leaves the buffer unchanged; either way it keeps the interacting flag and clears the error message; other events behave as in `InputStep` |
| InputWidget.StepKeepsFilter | src/main/kotlin/xyz/malefic/scripting/components/InputComponent.kt:65-78 | with a filter closed under dropping the last character, every step keeps the buffer accepted by the filter |
| InputWidget.StepIgnoresTransform | src/main/kotlin/xyz/malefic/scripting/components/InputComponent.kt:114 | the transform never affects the state |
| InputWidget.InputRun | src/main/kotlin/xyz/malefic/scripting/components/InputComponent.kt:55-83 | over any event sequence a buffer never disappears and a completed prompt stays completed |
| InputWidget.InputRunSnoc | src/test/kotlin/xyz/malefic/scripting/TestHelper.kt:12-16 | handling a sequence and then one more event is handling the longer sequence |
| InputWidget.ReachableBuffersFiltered | src/main/kotlin/xyz/malefic/scripting/components/InputComponent.kt:65-78 | every buffer reachable from the start is accepted by a filter closed under dropping the last character |
| InputWidget.SpaceGateBypassesFilter | src/main/kotlin/xyz/malefic/scripting/components/InputComponent.kt:68-72 | as written, 'a' then Space leaves the buffer "a ", which a filter closed under Backspace refuses |
| InputWidget.AtMostOneCharClosed | src/main/kotlin/xyz/malefic/scripting/components/InputComponent.kt:66 | the one-character filter is closed under Backspace |
| InputWidget.RenderEndsLineOnlyWhenDone | src/main/kotlin/xyz/malefic/scripting/components/InputComponent.kt:105-136 | the view ends the line exactly when completed, and then shows the transformed value highlighted |
| InputWidget.Mask | src/main/kotlin/xyz/malefic/scripting/components/InputComponent.kt:177 | the password view of a value is the mask repeated once per character: it starts with the mask and repeats with the mask's length as period |
| InputWidget.MaskHidesContent | src/main/kotlin/xyz/malefic/scripting/components/InputComponent.kt:177 | two values of the same length look identical behind the mask |
| InputWidget.PasswordViewHidesValue | src/main/kotlin/xyz/malefic/scripting/components/InputComponent.kt:169-180 | a password prompt's view depends on the value's length, never on its characters |
| InputWidget.LeadingDigits | src/main/kotlin/xyz/malefic/scripting/components/InputComponent.kt:198 | the longest all-digit prefix |
| InputWidget.LeadingDigitsUnique | src/main/kotlin/xyz/malefic/scripting/components/InputComponent.kt:198 | the longest digit prefix is the only digit prefix followed by a non-digit or the end |
| InputWidget.NumberPrefixDropLast | src/main/kotlin/xyz/malefic/scripting/components/InputComponent.kt:198 | the number filter still accepts its strings after their last character is removed |
| InputWidget.NumberPrefixClosed | src/main/kotlin/xyz/malefic/scripting/components/InputComponent.kt:198 | the number filter is closed under Backspace |
| InputWidget.NumberValidIsFilteredWithLeadingDigit | src/main/kotlin/xyz/malefic/scripting/components/InputComponent.kt:197-198 | the corrected validation accepts exactly the non-empty filter strings that start with a digit |
| InputWidget.ValidationsAgreeOnFilteredText | src/main/kotlin/xyz/malefic/scripting/components/InputComponent.kt:197-198 | on text the filter lets through, the validation as written and the corrected one agree |
| InputWidget.NumberValidationAcceptsLetters | src/main/kotlin/xyz/malefic/scripting/components/InputComponent.kt:197 | the validation as written accepts "1x"; the corrected one and the filter reject it |
| InputWidget.NumberBuffersStayNumeric | src/main/kotlin/xyz/malefic/scripting/components/InputComponent.kt:190-201 | typed text in a number prompt is always digits, at most one point, digits |
| InputWidget.CompletionIsValid | src/main/kotlin/xyz/malefic/scripting/components/InputComponent.kt:58-64 | a prompt that completed had an Enter at which the validation accepted the value |
| InputWidget.InputRunAsWritten | src/main/kotlin/xyz/malefic/scripting/components/InputComponent.kt:55-83 | the fold of the step as written; a completed prompt stays completed |
| InputWidget.SpaceNeverNumeric | src/main/kotlin/xyz/malefic/scripting/components/InputComponent.kt:68-72 | neither a lone space nor any buffer followed by a space is in the number filter's language |
| InputWidget.NumberStepsAgree | src/main/kotlin/xyz/malefic/scripting/components/InputComponent.kt:190-201 | with a default in the filter's language, one step of the number prompt as written equals the corrected step from every filtered state |
| InputWidget.NumberRunsAgree | src/main/kotlin/xyz/malefic/scripting/components/InputComponent.kt:190-201 | the same agreement over every event sequence, so the number results hold for the code as written |
| InputWidget.NumberBuffersStayNumericAsWritten | src/main/kotlin/xyz/malefic/scripting/components/InputComponent.kt:190-201 | in the number prompt as written, typed text is always digits, at most one point, digits |
| InputWidget.NumberKey | src/main/kotlin/xyz/malefic/scripting/components/InputComponent.kt:73-78 | a key whose extended buffer matches the number pattern is appended |
| InputWidget.FirstDigit | src/main/kotlin/xyz/malefic/scripting/components/InputComponent.kt:73-78 | the first digit creates the buffer |
| InputWidget.SecondDigit | src/main/kotlin/xyz/malefic/scripting/components/InputComponent.kt:73-78 | a second digit is appended |
| InputWidget.LetterDropped | src/main/kotlin/xyz/malefic/scripting/components/InputComponent.kt:73-78 | a letter typed into a number prompt is silently dropped |
| InputWidget.DecimalPoint | src/main/kotlin/xyz/malefic/scripting/components/InputComponent.kt:73-78 | a point after digits is appended |
| InputWidget.FractionDigit | src/main/kotlin/xyz/malefic/scripting/components/InputComponent.kt:73-78 | a digit after the point is appended |
| InputWidget.EnterAccepts | src/main/kotlin/xyz/malefic/scripting/components/InputComponent.kt:58-64 | Enter on "12.5" completes the number prompt |
| InputWidget.NumberSteps | src/main/kotlin/xyz/malefic/scripting/components/InputComponent.kt:55-83 | each step of typing 1, 2, x, '.', 5 and Enter |
| InputWidget.TypedNumber | src/main/kotlin/xyz/malefic/scripting/components/InputComponent.kt:190-201 | typing 1, 2, x, '.', 5 and Enter completes with "12.5" |
| InputWidget.TypedNumberAsWritten | src/main/kotlin/xyz/malefic/scripting/components/InputComponent.kt:190-201 | the number prompt as written also completes with "12.5" after the same keystrokes |
| InputWidget.InputComponent.constructor | src/main/kotlin/xyz/malefic/scripting/components/InputComponent.kt:24-34 | the widget starts with no buffer, interacting, with no error |
| InputWidget.InputComponent.Value | src/main/kotlin/xyz/malefic/scripting/components/InputComponent.kt:41 | the buffer, or the default while none exists |
| InputWidget.InputComponent.IsInteracting | src/main/kotlin/xyz/malefic/scripting/components/InputComponent.kt:48 | the interacting flag of the state |
| InputWidget.InputComponent.OnEvent | src/main/kotlin/xyz/malefic/scripting/components/InputComponent.kt:55-83 | the field updates make exactly one `InputStep` |
| InputWidget.InputComponent.OnEventSequence | src/test/kotlin/xyz/malefic/scripting/TestHelper.kt:12-16 | handling events one by one makes exactly the `InputRun` fold |
| InputWidget.TypeNumber | src/main/kotlin/xyz/malefic/scripting/components/InputComponent.kt:190-201 | the same keystrokes through the widget object yield "12.5" and a completed prompt |
| AnsiOutput.PairsCount | src/main/kotlin/xyz/malefic/scripting/core/AnsiOutput.kt:26-29 | n repetitions hold n erases and n moves up |
| AnsiOutput.ErasePrefixCounts | src/main/kotlin/xyz/malefic/scripting/core/AnsiOutput.kt:22-31 | the prefix starts with column 0. Above two lines it erases prev + 1 times and moves up prev - 1 times; otherwise it erases once and never moves up |
| AnsiOutput.SimulateAppend | src/main/kotlin/xyz/malefic/scripting/core/AnsiOutput.kt:22-31 | running two command lists one after the other is running their concatenation |
| AnsiOutput.SimulatePairs | src/main/kotlin/xyz/malefic/scripting/core/AnsiOutput.kt:26-29 | n repetitions erase the starting line and the n - 1 above it, leaving the cursor n lines up |
| AnsiOutput.SimulateFromErased | src/main/kotlin/xyz/malefic/scripting/core/AnsiOutput.kt:24-29 | the leading erase of the prefix is subsumed by the repetitions |
| AnsiOutput.ErasePrefixClearsPreviousView | src/main/kotlin/xyz/malefic/scripting/core/AnsiOutput.kt:22-31 | with the cursor on the last line of a previous view above two lines, the prefix erases exactly that view's lines and ends on its first line; otherwise it erases only the current line |
| AnsiOutput.LineCount | src/main/kotlin/xyz/malefic/scripting/core/AnsiOutput.kt:35 | a view has at least one line |
| AnsiOutput.NoTerminatorIsOneLine | src/main/kotlin/xyz/malefic/scripting/core/AnsiOutput.kt:35 | a view without line terminators is one line |
| AnsiOutput.TrailingNewlineAddsLine | src/main/kotlin/xyz/malefic/scripting/core/AnsiOutput.kt:35 | a trailing newline adds an empty last line, unless it completes a "\r\n" |
| AnsiOutput.Output.constructor | src/main/kotlin/xyz/malefic/scripting/core/AnsiOutput.kt:12 | the remembered height starts at 0 |
| AnsiOutput.Output.Display | src/main/kotlin/xyz/malefic/scripting/core/AnsiOutput.kt:19-36 | the loop builds exactly the erase prefix for the previous height, followed by the unchanged view, and remembers the view's line count |
| AnsiOutput.RepaintOneLine | src/main/kotlin/xyz/malefic/scripting/core/AnsiOutput.kt:19-36 | the first display and the repaint of a one-line view only clear the current line |
| AnsiOutput.RepaintThreeLines | src/main/kotlin/xyz/malefic/scripting/core/AnsiOutput.kt:19-36 | a three-line view is repainted by erasing its three lines from the bottom up |

## Left out

- **Terminal plumbing.** Raw mode, the jline terminal and reader, and closing them (`KInquirer.kt:39-53`) are terminal I/O. `Output.Display` returns the frame it would write; it does not write or flush the console.
- **ANSI styling.** Styling through the jansi library is represented by abstract segments. `Styled` keeps the attribute order of each call, and `CursorLeft(n)` stands for the cursor-left escape. Escape bytes are not produced.
- **The `prompt` driver loop.** It renders, decodes and handles events until the widget completes. It is not modelled as one loop, because there is no shared widget interface: each widget's `OnEventSequence` models the event loop, `DecodeAll` models the repeated decoding, and `Output.Display` models one repaint.
- **Platform detection.** The `os.name` check is replaced by an explicit `Profile` parameter. This covers both the decoder and the default glyphs.
- **The `promptX` wrappers.** They only build a widget; their defaults appear as constants, such as `PromptPageSize` and `IntMax`.
- **BigDecimal parsing.** The number prompt's BigDecimal parsing and the general regex engine are left out. The two fixed patterns are written by hand as predicates.
- Decoder.HandleInteraction: requires a first code in 0..0xFFFF outside the surrogate range, because a Dafny `char` is a Unicode scalar value. An end-of-stream first read (-1), where the source's `Char(-1)` throws, is not modelled. Reads after the first that fall past the input see -1, as the source's reader returns.
- ListWidget.ListComponent.constructor: requires at least one choice and a page size of at least one. With no choices, the source's Down moves the cursor to -1 and `value()` fails. That path is not modelled.
- CheckboxWidget.CheckboxComponent.constructor: requires at least one choice and a page size of at least one, for the same reason as the list.
- InputWidget.Mask: repeats the mask once per Dafny character, where the source maps over UTF-16 units, so a character outside the basic plane is masked twice there and once here.
- InputWidget.RenderInput: `CursorLeft` counts Dafny characters where the source counts UTF-16 units, so the two differ for characters outside the basic plane.
- InputWidget.InputComponent.OnEvent: implements the corrected Space gate, which asks the filter about the buffer with the space appended. The gate as written is modelled by `InputStepAsWritten` and `InputRunAsWritten`, and `NumberRunsAgree` shows the two agree on number prompts whose default is in the filter's language.
- Pagination.Down: Kotlin's 32-bit `Int` wrap-around is not modelled. `AllFitNeverScrolls` shows the window never scrolls when the page holds every choice, so the source's `start + pageSize` cannot wrap with the unbounded default page size.

## Findings

| source | as written | input that shows it | evidently intended | confidence | as-written member | corrected member |
|---|---|---|---|---|---|---|
| src/main/kotlin/xyz/malefic/scripting/components/InputComponent.kt:68-72 | Space is accepted when `filter(" ")` holds, whatever the buffer holds | filter "at most one character" (closed under Backspace), keys 'a' then Space: the buffer becomes "a ", which the filter rejects | ask `filter(buffer + " ")`, as the character branch does at lines 74-75, so every buffer stays within the filter | medium, not executed | InputWidget.InputStepAsWritten, InputWidget.SpaceGateBypassesFilter | InputWidget.InputStep, InputWidget.ReachableBuffersFiltered |
| src/main/kotlin/xyz/malefic/scripting/components/InputComponent.kt:197 | the number validation `\d+.?\d*` leaves the dot unescaped, so it matches any character | a number prompt with default "1x" and Enter pressed at once: validation passes and "1x" goes to BigDecimal, which is not a decimal | `\d+\.?\d*`, the filter's pattern with a leading digit | high, not executed | InputWidget.NumberValidAsWritten, InputWidget.NumberValidationAcceptsLetters | InputWidget.NumberValid, InputWidget.NumberValidIsFilteredWithLeadingDigit |
