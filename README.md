# Voice assistant front-end: key loading, event guards and command dispatch

This project models the control core of a voice-driven chatbot front-end
(`GPT3-LANGUAGE_MODEL/main.py`), in Dafny, and proves properties of it:

- **Start-up keys** (`keys.dfy`, module `Keys`). `load_keys_from_file` reads
  `keys.txt`. When the file is missing it writes a template holding both
  labels with empty values. When the file exists it takes the OpenAI key and
  the optional ElevenLabs key from their label lines. `GUI.__init__` then
  chooses the keys from the command line or from the file, or exits.
- **Event guards** (`gui.dfy`, `Gui.React`, `Gui.Window.HandleEvent`). Space
  starts a listening turn, and Q saves and quits, only between turns. P
  cancels only during a turn. Escape and closing the window always quit.
- **One listening turn** (`Gui.Window.ListenForAudio` and `Gui.Window.RunCommand`,
  specified by `Gui.Respond` and `Gui.Dispatch`):
  - The colour moves through yellow, green, red and blue.
  - Cancellation is checked twice, once after capture and once after recognition.
  - The transcript (with a newline appended) is classified by the first of ten
    trigger phrases it contains (`commands.dfy`, module `Commands`).
  - Then the command runs, or the transcript is forwarded to the chatbot.
- **The token command** (`tokens.dfy`, module `Tokens`; `Gui.Window.AdjustTokens`):
  - Every ',' and then every '$' is removed, the text is split on single spaces
    and the word list is reversed.
  - The first word that Python's `int()` accepts ends the search.
  - The budget takes that number only when it lies between 1 and 3999.
- **`stop_working`** (`Gui.Window.StopWorking`) lowers `cancel` and `working`
  and turns the window red.

Python's string operations are modelled in `text.dfy` (module `Text`):
- `in` as substring search;
- `split(sep)[1]`;
- `replace(c, '')`;
- `split(' ')`;
- `reverse()`.

`int()` on ASCII text and `str()` of an integer are in `integers.dfy`
(module `Integers`).

Everything outside this core is an input of the model. That covers the
microphone, the speech recogniser, the chatbot session's own methods, the file
system and `randint`:
- `Gui.Recognition` is the recogniser's answer.
- `Gui.World` holds the chatbot's answers and the file-system facts for one turn.
- Three booleans say whether P was pressed while the audio was captured, while
  it was recognised and while the reply was fetched.
- The key file is passed as its contents (`Option<string>`, None when missing).

Two behaviours of the code are worth stating plainly:

- The `cancel` flag is not cleared when a listening turn starts. Only
  `stop_working` clears it, and neither the forwarded path nor the recogniser-error
  path calls `stop_working`. A P pressed while the chatbot's reply is
  being fetched therefore cancels the next turn, whatever is said then.
  `Gui.StaleCancel` proves this.
- The token command removes only ',' and '$' (no other punctuation) and
  splits on single spaces (not on any whitespace). The newline appended to the
  transcript therefore stays on the last word, where `int()` strips it again
  (`Integers.TrailingSpaceIgnored`).

## Model

| member | source | states |
|---|---|---|
| `Text.Contains` | GPT3-LANGUAGE_MODEL/main.py:218-327 | Python's `p in s`: true exactly when the phrase occurs at some index; `Text.FindFirst` locates the first one. |
| `Text.Find` | GPT3-LANGUAGE_MODEL/main.py:218 | A found index is an occurrence of the phrase in the transcript. |
| `Text.FindFirst` | GPT3-LANGUAGE_MODEL/main.py:218 | The index found is the first occurrence; no index means the phrase occurs nowhere, which is what Python's `in` tests. |
| `Text.OccursContains` | GPT3-LANGUAGE_MODEL/main.py:218 | Any occurrence of the phrase makes `in` true. |
| `Text.FindAt` | GPT3-LANGUAGE_MODEL/main.py:218 | An occurrence with none before it is the one found. |
| `Text.After` | GPT3-LANGUAGE_MODEL/main.py:302 | The text after the first occurrence of the separator is shorter than the text by at least the separator's length. |
| `Text.SplitSecond` | GPT3-LANGUAGE_MODEL/main.py:302 | `split(sep)[1]` is the text after the first separator, up to the next separator or to the end; it holds no separator. |
| `Text.FirstInPrefix` | GPT3-LANGUAGE_MODEL/main.py:302 | The text before the first occurrence is followed by the separator and holds none itself. |
| `Text.RemoveChar` | GPT3-LANGUAGE_MODEL/main.py:232-233 | `replace(c, '')` leaves no `c` in the text. |
| `Text.RemoveCharSingle` | GPT3-LANGUAGE_MODEL/main.py:232-233 | On one character, `replace(c, '')` drops it when it is `c` and keeps it otherwise. |
| `Text.RemoveCharContents` | GPT3-LANGUAGE_MODEL/main.py:232-233 | `replace(c, '')` keeps every other character as many times as it occurs (multiset equality). |
| `Text.RemoveCharAppend` | GPT3-LANGUAGE_MODEL/main.py:232-233 | Removal distributes over concatenation. |
| `Text.RemoveCharSubset` | GPT3-LANGUAGE_MODEL/main.py:42 | Removal introduces no character that was not there. |
| `Text.RemoveCharAbsent` | GPT3-LANGUAGE_MODEL/main.py:232-233 | Removing a character that is absent changes nothing. |
| `Text.SplitOn` | GPT3-LANGUAGE_MODEL/main.py:234 | `split(' ')` gives at least one part, and no part holds a space. |
| `Text.JoinSplitOn` | GPT3-LANGUAGE_MODEL/main.py:234 | Joining the parts of a split with the separator gives back the text. |
| `Text.SplitOnJoin` | GPT3-LANGUAGE_MODEL/main.py:234 | Splitting a join of separator-free parts gives back the parts. |
| `Text.SplitOnAbsent` | GPT3-LANGUAGE_MODEL/main.py:234 | A text without the separator splits into itself alone. |
| `Text.SplitOnLastWord` | GPT3-LANGUAGE_MODEL/main.py:234 | A separator followed by a final word adds that word as the last part. |
| `Text.JoinLast` | GPT3-LANGUAGE_MODEL/main.py:234 | A join splits off its last part. |
| `Text.Join` | GPT3-LANGUAGE_MODEL/main.py:234 | `' '.join(parts)` starts with its first part; `Text.JoinSplitOn` and `Text.SplitOnJoin` make it the inverse of `split(' ')`. |
| `Text.Reverse` | GPT3-LANGUAGE_MODEL/main.py:235 | `reverse()` keeps the length and puts element `i` at position `n-1-i`. |
| `Text.TakeUntil` | GPT3-LANGUAGE_MODEL/main.py:40 | The regex `.*` match: the prefix up to the first newline, holding none, ending at a newline or the end. |
| `Text.PrefixUntilUnique` | GPT3-LANGUAGE_MODEL/main.py:42 | Only one prefix stops at the first separator, so two descriptions of the field agree. |
| `Integers.Strip` | GPT3-LANGUAGE_MODEL/main.py:239 | The whitespace `int()` ignores is gone from both ends: the result is empty or starts and ends with a non-space; `Integers.StripLeftRemovesSpace` and `Integers.StripRightRemovesSpace` say only whitespace was removed. |
| `Integers.StripLeft` | GPT3-LANGUAGE_MODEL/main.py:239 | `int()` skips leading whitespace: the result is a suffix that starts with a non-space. |
| `Integers.StripRight` | GPT3-LANGUAGE_MODEL/main.py:239 | `int()` skips trailing whitespace: the result is a prefix that ends with a non-space. |
| `Integers.StripLeftRemovesSpace` | GPT3-LANGUAGE_MODEL/main.py:239 | Only whitespace is skipped on the left. |
| `Integers.StripRightRemovesSpace` | GPT3-LANGUAGE_MODEL/main.py:239 | Only whitespace is skipped on the right. |
| `Integers.DigitsValue` | GPT3-LANGUAGE_MODEL/main.py:239 | The value of a digit run; one without a leading zero is positive. `Integers.DigitsRoundTrip` makes it the inverse of `str()`. |
| `Integers.ParseSigned` | GPT3-LANGUAGE_MODEL/main.py:239 | A stripped word parses exactly when it is digits with at most one leading sign (and at least one digit); a negative value comes only from a leading '-'. |
| `Integers.ParseInt` | GPT3-LANGUAGE_MODEL/main.py:239 | `int(word)` succeeds exactly when the word, stripped of tab, line feed, vertical tab, form feed, carriage return and space, is one or more digits after an optional '+' or '-'; a negative value comes only with '-'. `Integers.ParseIntRoundTrip` and `Integers.ParseIntRejects` state acceptance and rejection. |
| `Integers.DigitChar` | GPT3-LANGUAGE_MODEL/main.py:245 | A digit below 10 prints as the matching ASCII digit. |
| `Integers.NatToDigits` | GPT3-LANGUAGE_MODEL/main.py:245 | `str()` of a natural number is a non-empty run of digits. |
| `Integers.IntToString` | GPT3-LANGUAGE_MODEL/main.py:245 | `str()` of an integer is non-empty. |
| `Integers.DigitsRoundTrip` | GPT3-LANGUAGE_MODEL/main.py:239 | Reading the digits of `str(n)` gives back `n`. |
| `Integers.StripUnchanged` | GPT3-LANGUAGE_MODEL/main.py:239 | A word without outer whitespace is not changed by the strip. |
| `Integers.ParseIntRoundTrip` | GPT3-LANGUAGE_MODEL/main.py:239 | `int(str(n)) == n` for every integer, negative ones included. |
| `Integers.ParseDigits` | GPT3-LANGUAGE_MODEL/main.py:239 | A non-empty run of digits parses as its decimal value. |
| `Integers.StripRightPadding` | GPT3-LANGUAGE_MODEL/main.py:239 | Trailing whitespace added to a word is stripped away. |
| `Integers.TrailingSpaceIgnored` | GPT3-LANGUAGE_MODEL/main.py:209-239 | The newline appended to the transcript does not stop its last word from parsing, and does not change the value. |
| `Integers.ParseIntRejects` | GPT3-LANGUAGE_MODEL/main.py:238-253 | A word with any character other than whitespace, a sign or a digit raises (None), so the loop skips it. |
| `Tokens.Cleaned` | GPT3-LANGUAGE_MODEL/main.py:232-233 | The text after `replace(',', '')` and `replace('$', '')` holds neither character; `Tokens.CleanedChar` and `Tokens.CleanedAppend` say everything else is kept in order. |
| `Tokens.Words` | GPT3-LANGUAGE_MODEL/main.py:231-234 | The cleaned transcript splits into at least one word. |
| `Tokens.FirstParsed` | GPT3-LANGUAGE_MODEL/main.py:237-253 | The `for`/`try`/`break` scan over a word list; `Tokens.FirstParsedAt`, `Tokens.FirstParsedNone` and `Tokens.FirstParsedSome` state that it returns the first word that parses, or None when none does. |
| `Tokens.FirstParsedSome` | GPT3-LANGUAGE_MODEL/main.py:237-253 | A number the scan finds is the value of one of the words. |
| `Tokens.TokenScan` | GPT3-LANGUAGE_MODEL/main.py:231-253 | The number the token command acts on is the value of one of the transcript's words; `Tokens.LastParsedWins` and `Tokens.NoNumberFound` say it is the last word that parses. |
| `Tokens.ReverseParsed` | GPT3-LANGUAGE_MODEL/main.py:235-253 | A number found by scanning the reversed list is the value of a word of the original list. |
| `Tokens.NewBudget` | GPT3-LANGUAGE_MODEL/main.py:241-249 | The budget either stays or becomes a value in 1-3999; it changes only to the number found, and always takes a found number that is in range. |
| `Tokens.FirstParsedNone` | GPT3-LANGUAGE_MODEL/main.py:237-253 | The loop finds nothing exactly when no word parses. |
| `Tokens.FirstParsedAt` | GPT3-LANGUAGE_MODEL/main.py:237-253 | The loop stops at the first word that parses, whatever its value. |
| `Tokens.ReversedScan` | GPT3-LANGUAGE_MODEL/main.py:235-253 | Scanning the reversed list picks the last word that parses. |
| `Tokens.LastParsedWins` | GPT3-LANGUAGE_MODEL/main.py:230-253 | The token command acts on the last word of the transcript that parses as an integer. |
| `Tokens.NoNumberFound` | GPT3-LANGUAGE_MODEL/main.py:230-253 | No number is found exactly when no word of the transcript parses. |
| `Tokens.CleanedAppend` | GPT3-LANGUAGE_MODEL/main.py:232-233 | Cleaning distributes over concatenation. |
| `Tokens.CleanedChar` | GPT3-LANGUAGE_MODEL/main.py:232-233 | Cleaning drops a lone ',' or '$' and keeps any other character. |
| `Tokens.CleanedSentence` | GPT3-LANGUAGE_MODEL/main.py:232-233 | Cleaning a sentence cleans each word and keeps the spaces and the final newline. |
| `Tokens.LastWordOfSentence` | GPT3-LANGUAGE_MODEL/main.py:231-234 | The last word of a sentence, with its newline, is the last word of the list. |
| `Tokens.LastWordDecides` | GPT3-LANGUAGE_MODEL/main.py:209-253 | A last word that parses decides the number, whatever came before it. |
| `Tokens.TrailingNumberChosen` | GPT3-LANGUAGE_MODEL/main.py:230-253 | A transcript ending in a number gives that number, however many numbers came before. |
| `Tokens.TrailingNumberOutOfRange` | GPT3-LANGUAGE_MODEL/main.py:241-251 | A transcript ending in a number outside 1-3999 leaves the budget unchanged, even when an earlier number would have been accepted. |
| `Tokens.CleanedDigits` | GPT3-LANGUAGE_MODEL/main.py:232-233 | Cleaning leaves digits alone. |
| `Tokens.LastWordDigits` | GPT3-LANGUAGE_MODEL/main.py:230-253 | A last word that cleans to digits gives their value. |
| `Tokens.DollarCleaned` | GPT3-LANGUAGE_MODEL/main.py:233 | Cleaning drops the dollar sign in front of an amount. |
| `Tokens.SeparatorCleaned` | GPT3-LANGUAGE_MODEL/main.py:232 | Cleaning drops a thousands separator. |
| `Tokens.DollarAmount` | GPT3-LANGUAGE_MODEL/main.py:230-253 | "... $150" sets the number to 150. |
| `Tokens.ThousandsSeparator` | GPT3-LANGUAGE_MODEL/main.py:230-253 | "... 1,500" sets the number to 1500. |
| `Commands.Argument` | GPT3-LANGUAGE_MODEL/main.py:302-328 | `speech.split(phrase)[1]`: the text after the first occurrence of the phrase, up to the next occurrence (which is then the first one in that text) or to the end; it holds no occurrence itself. |
| `Commands.Rank` | GPT3-LANGUAGE_MODEL/main.py:218-343 | Every command has a place in the testing order, and only Forward comes after all ten triggers. |
| `Commands.CommandAt` | GPT3-LANGUAGE_MODEL/main.py:218-340 | The command chosen for trigger `k` has rank `k`. |
| `Commands.ClassifyFrom` | GPT3-LANGUAGE_MODEL/main.py:218-343 | The if/elif chain from its `k`-th test on never selects an earlier trigger, and selects a command only when its trigger occurs; `Commands.ClassifyFromFirstMatch` adds that every trigger skipped is absent. |
| `Commands.Classify` | GPT3-LANGUAGE_MODEL/main.py:218-343 | A command other than Forward is selected only when its trigger occurs in the transcript; `Commands.ClassifyFirstMatch` adds that it is the first such trigger. |
| `Commands.ClassifyFromFirstMatch` | GPT3-LANGUAGE_MODEL/main.py:218-343 | From any test on, the chain stops at the first trigger the transcript contains. |
| `Commands.ClassifyFirstMatch` | GPT3-LANGUAGE_MODEL/main.py:218-343 | The command chosen is the one whose trigger is the first, in testing order, that occurs in the transcript; none occurs when the transcript is forwarded. |
| `Commands.ClassifyArgument` | GPT3-LANGUAGE_MODEL/main.py:300-328 | The preset and name commands carry `split(phrase)[1]` of their trigger. |
| `Commands.ArgumentIsRest` | GPT3-LANGUAGE_MODEL/main.py:302 | When the phrase occurs only once, the argument is everything after it, newline included. |
| `Keys.SearchLabel` | GPT3-LANGUAGE_MODEL/main.py:40-47 | `re.search(label + '.*')` matches exactly when the label occurs; the match starts with the label, lies at the label's first occurrence, holds no newline after the label and is followed by a newline or the end of the file. |
| `Keys.LabelMatchAt` | GPT3-LANGUAGE_MODEL/main.py:40-47 | The label and the rest of its line sit at the label's first occurrence and are followed by a newline or the end of the file. |
| `Keys.KeyValue` | GPT3-LANGUAGE_MODEL/main.py:42 | A key read from a line holds no space. |
| `Keys.LineKey` | GPT3-LANGUAGE_MODEL/main.py:42-49 | On a line the search matched, the `split('=')` cannot fail, and the key holds no space. |
| `Keys.LoadKeys` | GPT3-LANGUAGE_MODEL/main.py:16-56 | Keys count as loaded exactly when the file exists and holds the OpenAI label; otherwise the defaults ' ' and '' are returned; the template is written exactly when the file is missing. |
| `Keys.LabelLineSeparates` | GPT3-LANGUAGE_MODEL/main.py:42 | A line starting with a label contains '='. |
| `Keys.FieldKey` | GPT3-LANGUAGE_MODEL/main.py:42-49 | The reference definition of a key: the text after the label up to the next '=' or newline, with spaces removed; it holds no space, '=' or newline. |
| `Keys.LabelSeparatorFirst` | GPT3-LANGUAGE_MODEL/main.py:42 | The first '=' of a label line is the label's own. |
| `Keys.LabelLineValue` | GPT3-LANGUAGE_MODEL/main.py:42 | `split('=')[1]` of a label line is the text after the label up to its next '='. |
| `Keys.KeyFromLine` | GPT3-LANGUAGE_MODEL/main.py:40-49 | The key the code extracts equals the reference field. |
| `Keys.LoadedKeys` | GPT3-LANGUAGE_MODEL/main.py:39-56 | From an existing file, the OpenAI key is its field, and the ElevenLabs key is its field when the label occurs and '' otherwise. |
| `Keys.SelectKeys` | GPT3-LANGUAGE_MODEL/main.py:69-99 | Two or more arguments give the keys from the command line; without them the program launches only with loaded keys and a non-empty OpenAI key. |
| `Keys.FileLaunch` | GPT3-LANGUAGE_MODEL/main.py:73-92 | Without arguments the program launches exactly when the file gives a non-empty OpenAI key, and then with the file's keys. |
| `Keys.MissingFileExits` | GPT3-LANGUAGE_MODEL/main.py:29-36 | A missing key file makes the program exit after writing the template. |
| `Keys.TemplateExits` | GPT3-LANGUAGE_MODEL/main.py:35-88 | The template written on a first run holds no key, so the next run without arguments exits too. |
| `Gui.React` | GPT3-LANGUAGE_MODEL/main.py:126-152 | Space starts a turn and Q saves and quits only while no turn runs; P raises `cancel` only during a turn; Escape and closing the window always quit without saving. |
| `Gui.Respond` | GPT3-LANGUAGE_MODEL/main.py:199-352 | A turn is cancelled exactly when `cancel` was already raised or P was pressed before one of the two checks, and a cancelled turn only lowers the flag. |
| `Gui.Dispatch` | GPT3-LANGUAGE_MODEL/main.py:218-352 | "speak like a robot" turns the voice on and "stop speaking like a robot" turns it off; the token command ends `TokensAdjusted` with the number `TokenScan` finds in the transcript and sets the budget to `NewBudget` of it; the pod-bay command answers with one of the HAL lines; the display, restore and reset commands end with what the rest of the system reports; the preset and name commands pass on their `split` argument with the chatbot's answer; Forward ends `Forwarded` with the unchanged transcript unless the reply fails, and keeps a P pressed during the reply. Every command other than Forward ends as a command with `cancel` lowered; only the token command changes the budget, and only the robot-voice commands change the voice. |
| `Gui.StaleCancel` | GPT3-LANGUAGE_MODEL/main.py:343-352 | A P pressed while a reply is fetched cancels the next turn, whatever is said then. |
| `Gui.CommandTurn` | GPT3-LANGUAGE_MODEL/main.py:218-256 | A heard, uncancelled turn whose transcript selects the token command ends with the budget `NewBudget` gives for the number `TokenScan` finds in it, and one that selects a robot-voice command ends with that voice; both lower `cancel`. |
| `Gui.ForwardedHoldsNoTrigger` | GPT3-LANGUAGE_MODEL/main.py:209-343 | A transcript reaches the chatbot only with its newline appended and when it holds none of the ten trigger phrases. |
| `Gui.Chatbot.constructor` | GPT3-LANGUAGE_MODEL/main.py:105 | The chatbot session gets the chosen keys. |
| `Gui.Window.constructor` | GPT3-LANGUAGE_MODEL/main.py:59-61 | Given the keys `Gui.Start` chose, the chatbot gets them; after start-up the window is red and idle, `cancel` is lowered, and the event loop runs. |
| `Gui.Window.WarmUp` | GPT3-LANGUAGE_MODEL/main.py:168-185 | The microphone warm-up run ends idle and red with `cancel` lowered. |
| `Gui.Window.StopWorking` | GPT3-LANGUAGE_MODEL/main.py:154-166 | `stop_working` lowers `cancel` and `working`, turns the window red, and touches nothing else. |
| `Gui.Window.HandleEvent` | GPT3-LANGUAGE_MODEL/main.py:126-152 | One event does what `React` prescribes: P raises `cancel` only during a turn; quitting stops the loop; nothing else changes. |
| `Gui.Window.AdjustTokens` | GPT3-LANGUAGE_MODEL/main.py:230-256 | The loop returns the number `TokenScan` defines and sets the budget to `NewBudget` of it; the voice setting is unchanged. |
| `Gui.Window.ListenForAudio` | GPT3-LANGUAGE_MODEL/main.py:168-352 | One turn ends as `Respond` prescribes (turn, `cancel`, budget and voice); the window ends idle and red, and the event loop keeps running. |
| `Gui.Window.RunCommand` | GPT3-LANGUAGE_MODEL/main.py:218-352 | The selected command, or the forward to the chatbot, ends as `Dispatch` prescribes, idle and red. |
| `Gui.Start` | GPT3-LANGUAGE_MODEL/main.py:29-111 | The program exits exactly when the key selection says so, and otherwise opens an idle window whose chatbot holds the chosen keys; the template is written exactly when no key is given on the command line and the key file is missing. |

## Left out

- Drawing and pygame: the window is only its colour and flags. The `main_loop` set-up (lines 115-121) and `change_color` are not modelled. Closing the window is `running := false` rather than `sys.exit()`.
- Threads: the event loop and the listening turn run concurrently in the source. The model runs one turn as one method call. P presses from the event thread are parameters applied at three points: during capture, during recognition and during the reply. A press at any other moment (for example, while a command is speaking) is not modelled.
- The microphone and `recognize_google` are the `Recognition` parameter. Any error the recogniser raises is `NotUnderstood`. A microphone error (`with self.mic`, `adjust_for_ambient_noise` or `listen`, lines 190-197) happens outside the `try` at line 208 and is not modelled: it would end the listener thread with `working` still raised, so Space and Q would be ignored from then on.
- The chatbot module (`Chatbot`, `set_self`, `change_name`, `restore_self`, `restore_conversation`, `restore_memory`, `save_memories`, `say_to_chatbot`) is not part of this model. Its answers are fields of `World`. An exception raised by one of these calls during a command is not modelled; only a failing reply is.
- File-system effects: the existence of `neocortex`, the number of memory files, the existence of the preset file and its removal are fields of `World`. The key file is passed as its contents, and the template write is the `written` field of `KeyLoad`.
- `randint` is the `quip` field of `World`, constrained to a valid index into the four lines.
- Speech output (`robospeak`), `info`, `color` and `print` messages, and the `cancel`/`tag` arguments of `stop_working` are left out. They are assumed to succeed: the model has no path on which one of them raises.
- `Gui.Window.AdjustTokens`: does not model a failing `info` or `robospeak` inside the loop's `try` (lines 244-249). The bare `except: continue` (lines 252-253) would catch it after the budget was set, and the scan would go on to earlier words. For example, "... 100 or 200" would end at 100. The model always stops at the first word that parses.
- `Gui.Window.RunCommand`: does not model speech output or a chatbot call raising during a command. The `except` at lines 346-347 would catch it and skip `stop_working`, so `cancel` would not be lowered on that path.
- `Integers.ParseInt`: models `int()` on ASCII text only. Underscore separators ("1_000") and non-ASCII digits and whitespace are not accepted by the model, though Python accepts them. The model also accepts digit strings of any length, while Python 3.11 and later raise `ValueError` above 4300 digits.
- The `except Exception` around the key-file parse (lines 51-53) can never be taken: a line matched by the label search always contains '='. The model has no such branch.
- Intermediate colours are assigned in `ListenForAudio`, but only the final colour is stated.
