# WhatsApp poll bot — a Dafny model

The bot is a one-shot command-line script. It takes one argument, `dinner`
or `breakfast`, and starts a messaging client. It then looks up the group
chat named exactly `C-502 Cook Talks` and sends it a two-option poll
("Yes"/"No"). The send is attempted at most three times, with a 5000 ms pause
after each failed attempt except the last. The program exits with status 0
when the poll was delivered and 1 otherwise.

This project models the part of the script that is its own logic. The
messaging client is abstracted as inputs:

- `Chats`: the chat record, the lookup predicate and `findTargetGroup` (first
  match in list order, exact case-sensitive name, an error when absent).
- `Polls`: the two fixed payloads and the command-line argument check.
- `SenderKey`: the sender-match key of the message handler (target name
  lower-cased, whitespace runs deleted, searched as a substring).
- `Retry`: `sendPoll` as a state machine (`Run`: Attempting(n) leads to Sent,
  to Attempting(n+1) after a pause, or to Failed). `SendPoll` is the loop as
  the script writes it, proved to compute the same report.
- `Cli`: `main`, i.e. argument check, client start, dispatch to the dinner or
  breakfast sender, and exit status.
- `Wrappers` and `Errors`: `Option`/`Result` and the error kinds one attempt
  can end with.

Each send attempt is described by an `Attempt`. It holds the chat list the
client returns for that attempt (`None` when that request rejects) and
whether the client accepts the poll. A call of the send loop is given a
sequence of these, one per attempt it may make. Sleeping is recorded as the
list of pauses taken rather than as elapsed time.

Two facts about the send loop:
- After the last failed attempt, the loop rethrows that attempt's own error
  (bot.js:171). That error is a missing chat list, a missing group, or a
  failed send.
- The trailing `return false` (bot.js:176) is kept in the model. It is proved
  reachable only when `maxRetries` is 0.

## Model

| member | source | states |
|---|---|---|
| Chats.IsTarget | bot.js:127 | the find predicate: a chat is the target when it is a group and its name equals the target name exactly |
| Chats.FirstMatch | bot.js:126-128 | the index found is that of a group chat named exactly the target, and no earlier chat is one; no index exactly when no chat in the list is one |
| Chats.FindTargetGroup | bot.js:123-139 | lookup succeeds iff the fetched list holds a group chat named exactly the target, and then returns the first such chat in list order; a rejected chat-list request fails as such; otherwise fails with group-not-found naming the target |
| Chats.FirstMatchAppend | bot.js:126-128 | the search runs left to right: a match in a list's first part wins over any in the rest, else the rest's match is found at its shifted position |
| Chats.LaterChatsDoNotMatter | bot.js:126-128 | once a list holds the target group, appending chats (even another group with the same name) does not change the chat found |
| Chats.NearMissesAreNotFound | bot.js:126-132 | names differing only in case or spacing, and a non-group chat with the exact name, do not match: the lookup fails with group-not-found |
| Polls.DinnerPoll | bot.js:180-183 | the dinner payload offers exactly the two distinct options "Yes", "No" |
| Polls.BreakfastPoll | bot.js:189-192 | the breakfast payload offers exactly the two distinct options "Yes", "No" |
| Polls.PollFor | bot.js:247-253 | the payload sent for each accepted kind has the options "Yes", "No"; its question is "Dinner today?" exactly for dinner and "Breakfast tomorrow?" exactly for breakfast |
| Polls.ParsePollType | bot.js:225-230 | an accepted argument is the command-line name of the kind it selects, and each kind's name selects that kind |
| Polls.AcceptedIff | bot.js:227 | the argument is accepted iff it is exactly "dinner" or exactly "breakfast"; a missing argument is refused |
| Polls.RejectedExamples | bot.js:227-230 | a missing argument, "lunch", "Dinner" and the empty string are refused |
| SenderKey.LowerChar | bot.js:92 | an ASCII upper-case letter becomes its lower-case letter (code point plus 32); every other character is unchanged |
| SenderKey.LowerCase | bot.js:92 | lower-casing keeps the length and lowers each character in place |
| SenderKey.StripWhitespace | bot.js:92 | deleting whitespace runs leaves no whitespace character and never lengthens the name |
| SenderKey.StripOneChar | bot.js:92 | a single character is deleted exactly when it is whitespace and kept otherwise |
| SenderKey.StripAppend | bot.js:92 | stripping works piecewise on a concatenation; with StripOneChar this fixes the stripped value, keeping the other characters in order and with their multiplicity |
| SenderKey.StripFixesStripped | bot.js:92 | a name without whitespace is left unchanged by stripping |
| SenderKey.StripKeepsOnlyOriginal | bot.js:92 | every character of the stripped name comes from the original name |
| SenderKey.StripKeepsNonWhitespace | bot.js:92 | every non-whitespace character of the original name survives stripping |
| SenderKey.Key | bot.js:92 | the sender-match key holds no whitespace and no upper-case letter, and is no longer than the name |
| SenderKey.KeyOneChar | bot.js:92 | the key of one character is empty for whitespace and otherwise that character lower-cased |
| SenderKey.KeyAppend | bot.js:92 | the key of a concatenation is the concatenation of the keys; with KeyOneChar this fixes every key |
| SenderKey.TargetKey | bot.js:92 | the key of the target name "C-502 Cook Talks" is "c-502cooktalks" |
| SenderKey.IsFromGroup | bot.js:92 | the handler's test: the sender id contains the group name's key as a contiguous substring |
| SenderKey.TargetSenderMatch | bot.js:92 | a message is taken to come from the target group exactly when its sender id contains "c-502cooktalks" |
| SenderKey.KeyIdempotent | bot.js:92 | normalising an already normalised key changes nothing |
| SenderKey.KeyIgnoresWhitespace | bot.js:92 | inserting a whitespace character anywhere in a name leaves its key unchanged |
| SenderKey.BlankNameMatchesEverySender | bot.js:92 | a name made only of whitespace gives the empty key, so every sender id is taken to be the group's |
| Retry.AttemptOnce | bot.js:149-155 | an attempt succeeds iff the group lookup on that attempt's fresh chat list succeeds and the send is accepted; the given poll is delivered to exactly the group the lookup returned (the first match in that list); a failed lookup's error (chat list unavailable, group not found) is the attempt's error; a found group whose send fails gives a send error |
| Retry.Run | bot.js:141-177 | the loop never makes more than maxRetries attempts; it pauses once after each failed attempt but the last, always for retryDelay; it delivers at most one poll, exactly one iff it returns true, and only the given poll to a target group |
| Retry.SendPoll | bot.js:141-177 | the while loop with its attempt counter computes the same report as the state machine Run |
| Retry.RunFirstSuccess | bot.js:144-161 | if attempt k+1 is the first success, the loop returns true after exactly k+1 attempts and k pauses of retryDelay, delivering only that attempt's poll |
| Retry.RunAllFail | bot.js:163-172 | if every allowed attempt fails, all maxRetries attempts are made with maxRetries-1 pauses, nothing is delivered, and the last attempt's error is thrown |
| Retry.RunSucceedsIff | bot.js:144-172 | the loop returns true iff some allowed attempt succeeds |
| Retry.RunReturnsFalseIff | bot.js:144-176 | the trailing return false is reached iff no attempt is allowed, so with maxRetries at least 1 the loop always returns true or throws |
| Retry.RunIgnoresUnmadeAttempts | bot.js:149-161 | the report depends only on the attempts actually made: nothing happens after the first success or the last allowed failure |
| Retry.FailFailSucceed | bot.js:141-177 | with 3 retries and a 5000 ms delay, failing twice and then succeeding returns true after 3 attempts and exactly two pauses of 5000 ms |
| Retry.ThreeFailures | bot.js:141-177 | with 3 retries and a 5000 ms delay, three failures throw the third attempt's error after exactly two pauses of 5000 ms and deliver nothing |
| Cli.SendPollOfKind | bot.js:179-195 | the dinner and breakfast senders make at most 3 attempts and deliver only their own payload, only to a group chat named "C-502 Cook Talks" |
| Cli.RunMain | bot.js:223-264 | the exit status is 0 or 1; a refused argument exits 1 before the client is started and without any send; once the client starts, the report is exactly that of the chosen kind's send loop, and the status is 0 iff that loop delivered a poll; the status is 0 iff the argument is accepted, the client starts, and one of the 3 attempts succeeds, in which case exactly one poll of the chosen kind reached the target group |
| Cli.AllAttemptsFailExitsOne | bot.js:163-172 | with an accepted argument and a started client, three failed attempts exit 1 after two pauses of 5000 ms, deliver nothing and rethrow the third attempt's error |
| Cli.UnknownKindExitsEarly | bot.js:227-230 | "lunch" and a missing argument exit with status 1 without starting the client or sending |

## Left out

- Client construction and start-up (bot.js:16-53): the browser options and local authentication belong to a third-party library. Start-up is an input `initOk`; a failure exits 1.
- The event handlers (bot.js:55-96): QR rendering, authentication, disconnection and message logging are I/O. Only the key expression at bot.js:92 is modelled.
- The session-file write and the creation of the authentication directory (bot.js:20-22, bot.js:72): filesystem I/O.
- `logClientInfo` (bot.js:98-121): logging only.
- `sleep` (bot.js:205-207): real waiting is replaced by recording each pause's length in the report.
- `getCurrentIST` (bot.js:209-219): locale and time-zone formatting by the runtime.
- The ready-wait promise (bot.js:239-245): the client is assumed to become ready. The script would wait forever otherwise.
- `cleanup`, the `finally` block and the signal handlers (bot.js:197-203, bot.js:265-279): process lifecycle. A failing `destroy` after a successful send is not modelled.
- The poll object and message delivery of the client library: each attempt's send is an opaque accept/reject.
- All console output.
- Retry.Run: attempts are drawn from a finite list with at least maxRetries entries, which stands for the outside world; the script itself places no such demand.
- SenderKey.LowerChar, SenderKey.LowerCase: lower only the ASCII letters A-Z, one character at a time. JavaScript's `toLowerCase` also maps other Unicode letters ('É' to 'é'), can lengthen a string ('İ', U+0130, becomes two code units) and depends on context (a final 'Σ'). So `LowerCase` keeping the length, and `KeyAppend`, hold for the model but not for JavaScript on such names. The target name is plain ASCII.
- Retry.AttemptOnce: every rejection of the client is assumed to be a non-nullish value. bot.js:164 reads `error.message`, so a rejection with `undefined` or `null` would throw out of the catch block: `sendPoll` would then reject at once, with no pause and no further attempt. The model retries such a failure like any other.
