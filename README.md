# GynoConnect front end: a Dafny model

GynoConnect is a React front end for women's health. It has five parts:

- a nearby-practitioners page with a "use my location" button;
- a single-choice symptom filter that matches a concern to practitioners;
- practitioner cards that open a booking dialog or a reception-call dialog;
- a pre-consultation page with a chat, a report upload and video/schedule buttons;
- a scripted FAQ chat and a symptom screening page with multi-select.

This project models the state and logic of those components in Dafny and proves what they promise. The modules are:

| module | file | models |
|---|---|---|
| `Text` | `text.dfy` | the `trim()`, `toLowerCase()` and `includes()` the components call, over ASCII |
| `Opt`, `Toasts`, `Faq` | `common.dfy` | an optional value, the notification record, and the question/answer table the two chats share word for word |
| `Chat` | `functional_chat.dfy` | `src/components/FunctionalChat.tsx`: the keyword responder (a function) and the widget (a class with an append-only transcript) |
| `Booking` | `booking_modal.dfy` | `src/components/BookingModal.tsx`: the draft date and time, the slots, the title and the confirm rule |
| `Consult` | `video_consult.dfy` | `src/components/VideoConsult.tsx`: the page's state, the chat with delayed bot replies, and the upload flow |
| `Scan` | `sympto_scan.dfy` | `src/pages/SymptoScan.tsx`: the list toggle, the analyze predicate and the payload |
| `Doctors` | `doctors.dfy` | the three practitioner records, which `NearbyDoctors.tsx` and `SymptomFilter.tsx` each write out in full |
| `Filter` | `symptom_filter.dfy` | `src/components/SymptomFilter.tsx`: the selection, the table lookup with its empty fallback, the empty state and the tips |
| `Card` | `doctor_card.dfy` | `src/components/DoctorCard.tsx`: the picture lookup with its fallback, and the two dialog flags |
| `Nearby` | `nearby_doctors.dfy` | `src/components/NearbyDoctors.tsx`: the loading flag, the location and the notifications of the location request |
| `Header` | `header.dfy` | `src/components/Header.tsx`: the section buttons and the highlight rule |
| `Index` | `index_page.dfy` | `src/pages/Index.tsx`: the active section and the page drawn for it |

Components that change state are classes whose fields are the component's `useState` variables. Each handler that changes state is a method with a `modifies` clause. Pure expressions are functions.

A toast is modelled as an append to the component's `toasts` log.

A dialog whose open flag belongs to its parent (the booking dialog) returns a `close` request. The parent lowers its own flag when the request is set.

A dialog instance is a `const` field of the component that renders it. The practitioner card, the consultation page and the booking dialog are composed this way.

The FAQ chat's `faqData` and the consultation page's `quickQuestions` and `quickAnswers` hold the same six questions and answers. Both are modelled by the one table `Faq`: a `Topic` per entry, with `Question` and `Answer`. `Faq.Lookup` is the object indexing `faqData[q]` on the table's own keys, and it returns `None` where JavaScript gives `undefined`.

The consultation chat's `setTimeout` reply is modelled as follows:

- Sending a message records it in `scheduled`.
- `FireReply` is the timer firing for the oldest message not yet answered.
- `fired` counts the replies that have arrived.
- The invariant `Answered` keeps the number of user messages plus one (the greeting) equal to the number of bot messages plus the number of replies still to come. It also says that every message with a reply still to come is in the chat. That each reply answers its own message comes from `FireReply`'s contract: it appends `BotReply` of the oldest waiting message.

The location request is split into two steps:

- `UseLocation(supported)` raises the loading flag. It ends the request at once when the browser has no geolocation.
- `Answer(fix)` is the browser's callback with a position or an error.

Three behaviours of the code that the model keeps as written:

- **Cancelling a booking keeps the draft.** The Cancel button only calls `onClose` (`src/components/BookingModal.tsx:95`), so the chosen date and time survive. `Booking.BookingModal.Cancel` has no `modifies` clause.
- **A second location request cannot start.** The location button is disabled while loading (`src/components/NearbyDoctors.tsx:97`). So `Nearby.NearbyDoctors.UseLocation` requires that no request is under way.
- **The practitioner list is a constant.** There is no remote lookup (`src/components/NearbyDoctors.tsx:12-46`): `Nearby.NearbyDoctors.doctors` is a `const` field.

## Model

| member | source | states |
|---|---|---|
| Text.Trim | src/components/FunctionalChat.tsx:37 | the trimmed text is empty exactly when the text is blank; otherwise it neither starts nor ends with whitespace |
| Text.Lower | src/components/FunctionalChat.tsx:42 | lowercasing keeps the length and lowers each character (ASCII letters to their lower case, everything else unchanged) |
| Text.ContainsOccurs | src/components/FunctionalChat.tsx:43-47 | the left-to-right search answers true exactly when the word occurs at some position |
| Faq.TopicsComplete | src/components/FunctionalChat.tsx:18-25 | every entry of the table is listed once in key order |
| Faq.QuestionsDistinct | src/components/FunctionalChat.tsx:19-24 | no two entries of the table share a key |
| Faq.Find | src/components/FunctionalChat.tsx:28 | a found entry is in the list searched and has the key asked for; when none is found, no entry of the list has that key |
| Faq.Lookup | src/components/FunctionalChat.tsx:28 | indexing the table by a string other than an inherited property name is undefined exactly when no entry has the key; otherwise it is the answer of the entry with that key |
| Faq.FindQuestion | src/components/FunctionalChat.tsx:28 | searching a list that holds an entry for that entry's key finds that entry |
| Faq.LookupQuestion | src/components/FunctionalChat.tsx:18-25 | each key indexes the answer written beside it |
| Chat.Classify | src/components/FunctionalChat.tsx:40-49 | a typed message is answered from the fees, booking or reports entry, or with the default; the other three entries are never chosen |
| Chat.RespondPriority | src/components/FunctionalChat.tsx:42-49 | on the lowercased message: fee/cost/price gives the fee entry whatever else is mentioned; otherwise book/appointment gives booking; otherwise report/upload gives reports; otherwise the default (each as an if-and-only-if) |
| Chat.Respond | src/components/FunctionalChat.tsx:40-49 | a recognised message gets exactly the table's answer to its topic's question; any other message gets the default reply |
| Chat.FeeSubstringWins | src/components/FunctionalChat.tsx:43-44 | matching is on substrings: any message containing "fee" anywhere, as in "feel", gets the fee answer |
| Chat.RespondIgnoresCase | src/components/FunctionalChat.tsx:42 | the choice does not depend on letter case |
| Chat.CostQuestionGetsFeeAnswer | src/components/FunctionalChat.tsx:43-44 | "What will it cost?" gets the fee answer |
| Chat.Presets | src/components/FunctionalChat.tsx:75 | the preset buttons offer exactly the first three keys, in the order written |
| Chat.Label | src/components/FunctionalChat.tsx:83 | a label is at most 23 characters long; it is the question itself when it has at most 20 characters, otherwise its first 20 characters followed by "..." |
| Chat.PresetLabels | src/components/FunctionalChat.tsx:75-83 | all three preset questions are longer than 20 characters, so each button shows a truncated question |
| Chat.PresetsAgreeWithRespond | src/components/FunctionalChat.tsx:40-49 | typing a preset question picks the very entry the preset is the key of |
| Chat.FeeQuestionClassified | src/components/FunctionalChat.tsx:19 | the fee question, typed, gets the fee answer |
| Chat.BookQuestionClassified | src/components/FunctionalChat.tsx:20 | the booking question, typed, mentions no fee keyword and gets the booking answer |
| Chat.ReportQuestionClassified | src/components/FunctionalChat.tsx:21 | the report question, typed, mentions no fee or booking keyword and gets the report answer |
| Chat.RescheduleNotRecognised | src/components/FunctionalChat.tsx:22 | "What if I need to reschedule?", typed, gets the default reply although the table has an answer for it |
| Chat.AppendPair | src/components/FunctionalChat.tsx:29-33 | appending a question and an answer that answers it keeps the transcript a greeting followed by question/answer pairs |
| Chat.FunctionalChat.constructor | src/components/FunctionalChat.tsx:13-16 | the transcript starts as exactly the greeting, and the input is empty |
| Chat.FunctionalChat.SetInput | src/components/FunctionalChat.tsx:110 | typing replaces the input and leaves the transcript alone |
| Chat.FunctionalChat.ClickQuestion | src/components/FunctionalChat.tsx:27-34 | a preset click appends exactly the question and then its table answer; earlier entries and the input are unchanged |
| Chat.FunctionalChat.Send | src/components/FunctionalChat.tsx:36-58 | a blank input changes nothing; otherwise the untransformed input and the keyword reply are appended and the input is emptied |
| Booking.Title | src/components/BookingModal.tsx:52 | the title is "Book " followed by the word for the kind: call "Phone Call", video "Video Consultation", appointment "Appointment" |
| Booking.TitleDistinguishesKinds | src/components/BookingModal.tsx:52 | different kinds have different titles |
| Booking.TimeSlotsShape | src/components/BookingModal.tsx:41-44 | thirteen distinct slots: six from 9:00 AM to 11:30 AM and seven from 2:00 PM to 5:00 PM |
| Booking.SuccessDescription | src/components/BookingModal.tsx:33 | the confirmation text contains the kind, the practitioner's name, the date and the time verbatim |
| Booking.SuccessToast | src/components/BookingModal.tsx:31-34 | the confirmation notice is not destructive and carries that text |
| Booking.BookingModal.constructor | src/components/BookingModal.tsx:17-18 | the draft starts empty |
| Booking.BookingModal.SelectDate | src/components/BookingModal.tsx:67 | the date input replaces the date only |
| Booking.BookingModal.SelectTime | src/components/BookingModal.tsx:76-81 | a slot button sets the time to exactly its slot, so the time is always "" or a listed slot |
| Booking.BookingModal.Confirm | src/components/BookingModal.tsx:21-39 | with the date or the time empty: exactly one destructive notice, no close, draft unchanged; otherwise exactly one confirmation notice for the old date and time, a close request and an empty draft |
| Booking.BookingModal.Cancel | src/components/BookingModal.tsx:95 | cancelling only asks to close; the draft is untouched |
| Consult.Classify | src/components/VideoConsult.tsx:88-95 | on the lowercased message: pain/hurt first whatever else is mentioned; then period/menstrual; then pregnant/pregnancy; otherwise the general reply (each as an if-and-only-if) |
| Consult.BotReply | src/components/VideoConsult.tsx:86-95 | a message mentioning pain gets the pain reply; otherwise one mentioning periods the period reply; otherwise one mentioning pregnancy the pregnancy reply; otherwise the general reply |
| Consult.PregnancyMessage | src/components/VideoConsult.tsx:93 | a message containing "pregnancy" and no higher-priority keyword gets the pregnancy reply |
| Consult.PainBeatsPeriod | src/components/VideoConsult.tsx:89-92 | a message containing "pain" gets the pain reply even when it also mentions a period |
| Consult.QuickQuestions | src/components/VideoConsult.tsx:23-30 | the page's own literal list of six quick questions agrees, entry by entry and in order, with the keys of the answer table |
| Consult.QuickQuestionsAnswered | src/components/VideoConsult.tsx:23-39 | every quick question has its own entry in the answer table |
| Consult.AnsweredPair | src/components/VideoConsult.tsx:71-75 | a quick question with its answer keeps the user messages plus one equal to the bot messages plus the replies to come, and every waiting message in the chat |
| Consult.AnsweredSend | src/components/VideoConsult.tsx:82-85 | a sent message with its reply scheduled keeps the user messages plus one equal to the bot messages plus the replies to come, and every waiting message in the chat |
| Consult.AnsweredReply | src/components/VideoConsult.tsx:97 | the reply to the oldest waiting message keeps the user messages plus one equal to the bot messages plus the replies to come, and every waiting message in the chat |
| Consult.VideoConsult.constructor | src/components/VideoConsult.tsx:12-20 | no symptoms, no file, both dialogs closed, kind video, the chat is the greeting, nothing typed or waiting |
| Consult.VideoConsult.SetSymptoms | src/components/VideoConsult.tsx:186 | the text area replaces the symptoms only |
| Consult.VideoConsult.SetMessage | src/components/VideoConsult.tsx:273 | the chat input replaces the typed message only |
| Consult.VideoConsult.Upload | src/components/VideoConsult.tsx:41-47 | choosing files keeps the first and opens the report dialog; an empty choice changes nothing |
| Consult.VideoConsult.CancelUpload | src/components/VideoConsult.tsx:49-51 | removing the upload forgets the file and closes the report dialog |
| Consult.VideoConsult.CloseReport | src/components/VideoConsult.tsx:326 | continuing closes the report dialog and keeps the file |
| Consult.VideoConsult.VideoCall | src/components/VideoConsult.tsx:59-62 | the kind becomes video and the booking dialog opens |
| Consult.VideoConsult.Schedule | src/components/VideoConsult.tsx:64-67 | the same effect as the video-call button |
| Consult.VideoConsult.QuickQuestion | src/components/VideoConsult.tsx:69-76 | appends the question and then its table answer at once; nothing is scheduled |
| Consult.VideoConsult.Send | src/components/VideoConsult.tsx:78-101 | a blank message changes nothing and schedules nothing; otherwise the message is appended at once, its reply is scheduled and the input is emptied |
| Consult.VideoConsult.FireReply | src/components/VideoConsult.tsx:85-98 | a scheduled reply appends exactly one bot message, computed from the message as it was sent |
| Consult.VideoConsult.Deliver | src/components/VideoConsult.tsx:97 | the step of `FireReply` that appends the given reply as the answer to the oldest waiting message |
| Consult.VideoConsult.ConfirmBooking | src/components/VideoConsult.tsx:336-341 | the booking dialog decides with the name "Video Consultation Specialist", and the page closes it exactly when the booking succeeds |
| Consult.VideoConsult.CancelBooking | src/components/VideoConsult.tsx:338 | cancelling closes the booking dialog and keeps its draft |
| Scan.Remove | src/pages/SymptoScan.tsx:30 | filtering leaves no copy of the label and keeps only entries that were there |
| Scan.RemoveCounts | src/pages/SymptoScan.tsx:30 | filtering keeps every other label exactly as often as it was there |
| Scan.RemoveAppend | src/pages/SymptoScan.tsx:30 | filtering works piece by piece, so the kept labels keep their relative order |
| Scan.RemoveAbsent | src/pages/SymptoScan.tsx:30 | filtering an absent label changes nothing |
| Scan.Toggle | src/pages/SymptoScan.tsx:27-33 | the toggled label's membership flips and every other label keeps its membership |
| Scan.ToggleShape | src/pages/SymptoScan.tsx:28-31 | an absent label is appended at the end; a present one is removed wherever it stands and the rest keep their order |
| Scan.ToggleTwice | src/pages/SymptoScan.tsx:27-33 | toggling twice restores membership, and restores the list itself when the label was absent |
| Scan.ToggleTwiceReorders | src/pages/SymptoScan.tsx:27-33 | toggling a present label twice can change the order: it comes back at the end |
| Scan.ToggleKeepsNoRepeats | src/pages/SymptoScan.tsx:28-32 | a list without repeats stays without repeats |
| Scan.ToggleStaysWithin | src/pages/SymptoScan.tsx:12-25 | toggles of listed labels keep the selection within the listed labels |
| Scan.AnalyzeDisabled | src/pages/SymptoScan.tsx:126 | analyze is disabled exactly when nothing is selected and the description is blank |
| Scan.Payload | src/pages/SymptoScan.tsx:37 | the payload is the selected labels in order, followed by the description |
| Scan.SymptoScan.constructor | src/pages/SymptoScan.tsx:9-10 | nothing is selected or written at first |
| Scan.SymptoScan.ToggleSymptom | src/pages/SymptoScan.tsx:91-96 | a button toggles its label; the selection stays a repeat-free subset of the listed labels |
| Scan.SymptoScan.SetSymptoms | src/pages/SymptoScan.tsx:117 | the text area replaces the description only |
| Scan.SymptoScan.Analyze | src/pages/SymptoScan.tsx:35-38 | the payload is the selection followed by the description, and it says something: a label or a non-blank description |
| Filter.TipTextUnique | src/components/SymptomFilter.tsx:136-140 | when exactly one tip line is guarded by the id, the paragraph is that line |
| Filter.TipTextNone | src/components/SymptomFilter.tsx:136-140 | when no tip line is guarded by the id, the paragraph is empty |
| Filter.TipText | src/components/SymptomFilter.tsx:136-140 | a non-empty paragraph means some line is guarded by the id; an empty one means every line guarded by the id has empty text |
| Filter.Render | src/components/SymptomFilter.tsx:93-128 | the matching section and the tip card are both shown exactly when an id is selected |
| Filter.Shown | src/components/SymptomFilter.tsx:105 | at most one practitioner is shown, one of the three listed, and someone is shown exactly for pcos, infection and pregnancy |
| Filter.EmptyState | src/components/SymptomFilter.tsx:110-111 | the empty-state card appears exactly when no practitioner is shown |
| Filter.ShownSpecialists | src/components/SymptomFilter.tsx:18-58 | pcos shows Dr. Radhika Sen, infection Dr. Anjali Sharma, pregnancy Dr. Nidhi Kapoor |
| Filter.EmptyStateExactly | src/components/SymptomFilter.tsx:110-111 | the empty-state card appears exactly when no practitioner is shown, which among the buttons is for pain and reports |
| Filter.TipKeysAreOptionIds | src/components/SymptomFilter.tsx:136-140 | the tip guards are the five button ids, each once |
| Filter.OneTipPerOption | src/components/SymptomFilter.tsx:136-140 | each button's id shows exactly one tip line as its tip |
| Filter.UnknownIdShowsNothing | src/components/SymptomFilter.tsx:105-111 | an id with no button, other than an inherited property name, shows no practitioner, the empty-state card and an empty tip |
| Filter.SymptomFilter.constructor | src/components/SymptomFilter.tsx:7 | nothing is selected at first, so nothing is shown below the buttons |
| Filter.SymptomFilter.Select | src/components/SymptomFilter.tsx:75 | clicking a button selects its id whatever was selected before; the selection is always "" or a button id |
| Card.ImageLookup | src/components/DoctorCard.tsx:58 | ids 1 to 6 show their own picture; any other id shows the picture of id 1 |
| Card.ImageFor | src/components/DoctorCard.tsx:58 | every id, with or without an entry, is shown with one of the four pictures of ids 1 to 4 |
| Card.SharedImages | src/components/DoctorCard.tsx:32-39 | ids 1 and 5 share a picture, as do 2 and 6; ids 1 to 4 have four different pictures |
| Card.DoctorCard.constructor | src/components/DoctorCard.tsx:27-29 | both dialogs closed, kind appointment |
| Card.DoctorCard.HandleCall | src/components/DoctorCard.tsx:41-43 | only the call dialog opens |
| Card.DoctorCard.HandleBook | src/components/DoctorCard.tsx:45-48 | the kind is set to appointment and the booking dialog opens; the call dialog is untouched |
| Card.DoctorCard.CloseBooking | src/components/DoctorCard.tsx:115 | closing the booking dialog clears only its flag |
| Card.DoctorCard.CloseCall | src/components/DoctorCard.tsx:122 | closing the call dialog clears only its flag |
| Card.DoctorCard.ConfirmBooking | src/components/DoctorCard.tsx:113-118 | the booking dialog decides with this card's practitioner's name and kind appointment, and the card closes it exactly when the booking succeeds |
| Card.DoctorCard.CancelBooking | src/components/DoctorCard.tsx:115 | cancelling closes the booking dialog, keeps its draft and leaves the call dialog alone |
| Nearby.ListedIds | src/components/NearbyDoctors.tsx:12-46 | the list holds three practitioners with the distinct ids 1, 2 and 3 |
| Nearby.Notice | src/components/NearbyDoctors.tsx:58-70 | the notice for an answer is destructive exactly when the answer is an error |
| Nearby.NearbyDoctors.constructor | src/components/NearbyDoctors.tsx:10-12 | no location, not loading, and the fixed list |
| Nearby.NearbyDoctors.UseLocation | src/components/NearbyDoctors.tsx:50-80 | the button, which is disabled while loading, raises the loading flag; without geolocation it lowers it again with one destructive "not supported" notice; the location is untouched |
| Nearby.NearbyDoctors.Answer | src/components/NearbyDoctors.tsx:54-71 | every answer lowers the loading flag and fires exactly one notice; the location changes only on success, to the position found |
| Header.Click | src/components/Header.tsx:36-62 | a button hands the page its own value whatever section is active, and that button is then the highlighted one |
| Header.Highlighted | src/components/Header.tsx:35-67 | when a button is highlighted, no other button is |
| Header.NavValues | src/components/Header.tsx:34-71 | the buttons set "nearby", "symptoms" and "consult", three different values |
| Header.AtMostOneHighlighted | src/components/Header.tsx:35-67 | at most one button is highlighted for any active section |
| Header.NoLibraryButton | src/components/Header.tsx:25-71 | no button sets "library" |
| Index.Page | src/pages/Index.tsx:15-40 | the page is the header, then exactly the sections `Contents` draws for the active value, in order, then the footer |
| Index.PageAtMostOneSection | src/pages/Index.tsx:33-36 | the page holds at most one section, present exactly for nearby, consult and library; "symptoms" gives header and footer alone |
| Index.Contents | src/pages/Index.tsx:33-36 | at most one section is drawn; the nearby, consult and library sections are each drawn exactly when the active value is theirs |
| Index.AtMostOneSection | src/pages/Index.tsx:33-36 | at most one content section is drawn, the one whose value is active; "symptoms" draws none |
| Index.IndexPage.constructor | src/pages/Index.tsx:11 | the page opens on "nearby", which draws the nearby section |
| Index.IndexPage.Navigate | src/pages/Index.tsx:15 | a header button sets the active section to the button's value; it stays one a button sets |
| Index.LibraryUnreachable | src/pages/Index.tsx:36 | no section the header can set draws the library |

## Left out

- Layout, styling and the component library (dialogs, buttons, cards, inputs) are not modelled. Only the state they show and the handlers they call are.
- Text handling is ASCII only. `toLowerCase` lowers only A to Z, and `trim` strips only the six ASCII whitespace characters. Unicode case folding and whitespace are not modelled. A string is a sequence of characters, so the label's `length` and `substring(0, 20)` count characters where JavaScript counts UTF-16 code units; a label cut inside a surrogate pair is not modelled.
- The geolocation API and the `toFixed(2)` formatting are not modelled. A found position arrives as the already formatted text.
- The timer delay of the consultation chat is not modelled. A reply arrives when `FireReply` is called. Interleavings of replies with other handlers are represented only through the order of those calls.
- File objects and the DOM reset of the file input are not modelled. A file is modelled by its name.
- `console.log` of the analyze payload and the `window.location` link of the SymptoScan header button are not modelled. `Analyze` returns the payload instead.
- Scan.SymptoScan.Analyze: models only how the payload is formed. The page sends it nowhere.
- The reception-call dialog's random choice of a contact is not modelled. It is a random draw followed by a notice and a close.
- The date input's `min` bound, taken from the clock, is not modelled. It is a browser constraint, and the confirm rule does not check it.
- The health library page, the footer and the backend are not modelled. They hold static content or server wiring with no logic.
- Ratings are whole tenths (4.7 is 47), because the source uses them only as display values.
- The report dialog's own dismiss (`onOpenChange`) is modelled by `CloseReport`, the same as "Continue".
- The FAQ chat's open/close dialog props are not modelled.
- Faq.Lookup: models indexing on the table's own keys only. JavaScript also finds inherited property names such as `toString` or `constructor`, but the buttons only pass the six questions, and a typed message is never used as a key.
- Filter.Shown: models `doctorsBySymptom[id]` on the table's own keys only. An inherited property name is never selected, because the buttons only set their five ids. The same holds for `Filter.EmptyState` and `Filter.UnknownIdShowsNothing`.
- Each component is modelled as mounted once. Switching sections in the header (`src/pages/Index.tsx:33-36`) unmounts the consultation page and the nearby page. Their state resets when they are drawn again: the chat, the draft, the chosen file and the location. Replies still to come are dropped. The model does not tie a component's lifetime to the active section.
- Nearby.NearbyDoctors.UseLocation: the browser's geolocation support enters as the parameter `supported`, because the model has no browser.
