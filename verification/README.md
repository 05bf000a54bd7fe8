# mlab-ns push updates and Nagios status lines, in Dafny

mlab-ns keeps a registry of sliver tools: running instances of a measurement
tool, one per server and site. This project models two pieces of it.

- **The signed push-update handler** (`UpdateHandler`, update_handler.dfy).
  A sliver tool reports its status, addresses and URL, with a signature.
  `Post` runs the handler's checks in order:
  1. parse the arguments;
  2. find the SliverTool record under the composite id;
  3. compare the signature recomputed with the record's key to the submitted one;
  4. reject anything not newer than the stored `update_request_timestamp` (the replay guard).

  It then overwrites the reported fields and writes the record. The datastore
  is the class `SliverToolTable`, whose `rows` field is a map from composite
  id to record. `Post` is an imperative method over it. Its postcondition ties
  the answer and the new rows to the function `PostSpec`. The lemmas about
  `PostSpec` state what the handler promises: every rejection changes nothing;
  acceptance changes exactly the reported fields; records and keys survive any
  sequence of updates; and what the replay guard does and does not guarantee.
- **The Nagios status-line parser** (`NagiosStatus`, nagios_status.dfy). It is
  a pure function on strings. It models Python's `split(' ', 3)`, `split(' ')`,
  `' '.join`, `isspace` and `split('/')[0]` as verified functions, built on
  `Find`, the index of a character's first occurrence (the length of the
  string when it does not occur). "Space-free" (`SpaceFree`) means that
  `Find` finds no space, which `FindAbsent` proves is the same as containing
  no space. Lemmas
  characterise both the fast path and the fallback path, prove the documented
  example, and show which token each output field comes from.

wrappers.dfy holds the `Option` and `Result` types.

Two places where the code does less than its comments suggest; the model follows the code:

- The check at server/mlabns/handlers/update.py:51-52 is commented as
  preventing replay attacks. But after an accepted update the stored
  `update_request_timestamp` is the server's clock (update.py:72), not the
  submitted timestamp. So the guard compares client timestamps with server time.
  `ReplayAfterAcceptance` shows that an accepted request sent again is accepted
  again when its timestamp is ahead of the server clock.
  `TimestampCanMoveBackward` shows that a stored timestamp can decrease when the
  server clock is behind it. `RunTimestampsNeverDecrease` gives the clock
  condition under which timestamps never decrease.
- The parser's docstring gives the expected form as
  `[fqdn][state][state type][extra notes]` (server/mlabns/util/nagios_status.py:16).
  A line with only the first three fields is handled two ways. The code rejects
  `a b c`, because the fast path yields three pieces. It accepts `a  b c` and `a b c ` with an empty extra field, because
  the fallback path pads the fields to four (`ParseThreeTokensSingleSpaced`,
  `ParseThreeTokensDoubleSpaced`, `ParseFallbackPath`).

## Model

| member | source | states |
|---|---|---|
| `NagiosStatus.ParseSliverToolStatus` | server/mlabns/util/nagios_status.py:12-47 | a parsed line is not all whitespace, its fqdn holds no `/`, and its state is a non-empty space-free token; every failure is NagiosStatusUnparseableError with the fixed message |
| `NagiosStatus.SliverFields` | server/mlabns/util/nagios_status.py:31-36 | `sliver_fields` has one to four entries, and when it has four the first three are non-empty and space-free on either path |
| `NagiosStatus.SplitMax` | server/mlabns/util/nagios_status.py:31 | `split(' ', n)` gives between 1 and n+1 pieces |
| `NagiosStatus.SplitMaxJoin` | server/mlabns/util/nagios_status.py:31 | the pieces of `split(' ', n)` joined by single spaces give back the line |
| `NagiosStatus.SplitMaxSpaceFree` | server/mlabns/util/nagios_status.py:31 | every piece of `split(' ', n)` but the last holds no space, and the last holds none either when fewer than n cuts were made |
| `NagiosStatus.Split` | server/mlabns/util/nagios_status.py:32 | `split(' ')` gives at least one piece |
| `NagiosStatus.SplitJoinBack` | server/mlabns/util/nagios_status.py:32 | the pieces of `split(' ')` joined by single spaces give back the line |
| `NagiosStatus.SplitSpaceFree` | server/mlabns/util/nagios_status.py:32 | no piece of `split(' ')` holds a space |
| `NagiosStatus.SplitJoin` | server/mlabns/util/nagios_status.py:32 | splitting the join of space-free pieces returns those pieces (the inverse direction of `Split`) |
| `NagiosStatus.Join` | server/mlabns/util/nagios_status.py:34 | `' '.join`: `SplitJoin` and `SplitJoinBack` prove it is the inverse of `Split` in both directions (no contract of its own) |
| `NagiosStatus.IsSpace` | server/mlabns/util/nagios_status.py:38 | `isspace()`: non-empty and made only of whitespace; `ParseAllWhitespace` shows such a line is rejected, and `ParseFourFields` shows a line whose first field is not all whitespace is not rejected for it (no contract of its own) |
| `NagiosStatus.SplitMaxUnsaturated` | server/mlabns/util/nagios_status.py:31-36 | when `split(' ', n)` makes fewer than n cuts, it equals the unbounded `split(' ')` |
| `NagiosStatus.NonEmpty` | server/mlabns/util/nagios_status.py:33 | dropping empty pieces leaves only non-empty pieces and never lengthens the list |
| `NagiosStatus.NonEmptyKeepsSpaceFree` | server/mlabns/util/nagios_status.py:33 | dropping empty pieces from space-free pieces leaves space-free pieces |
| `NagiosStatus.NonEmptyAppend` | server/mlabns/util/nagios_status.py:33 | dropping empty pieces distributes over concatenation |
| `NagiosStatus.NonEmptyKeepsTokens` | server/mlabns/util/nagios_status.py:33 | when no piece is empty, every piece is kept, in order |
| `NagiosStatus.NonEmptyDropsEmpty` | server/mlabns/util/nagios_status.py:33 | an empty piece vanishes wherever it stands, and nothing else changes; with `NonEmptyAppend` and `NonEmptyKeepsTokens` this fixes the result on every input |
| `NagiosStatus.Words` | server/mlabns/util/nagios_status.py:32-33 | the tokens of the fallback path are non-empty and space-free |
| `NagiosStatus.WordsJoin` | server/mlabns/util/nagios_status.py:32-34 | the tokens of a line built by joining non-empty space-free tokens with single spaces are exactly those tokens (the round trip of `split(' ')` with empty tokens dropped) |
| `NagiosStatus.FqdnOf` | server/mlabns/util/nagios_status.py:45 | `split('/')[0]` is the longest slash-free prefix of the field: a prefix with no `/`, followed by `/` unless it is the whole field |
| `NagiosStatus.FqdnOfToolSuffix` | server/mlabns/util/nagios_status.py:45 | `fqdn/tool` yields `fqdn` when the fqdn holds no slash |
| `NagiosStatus.ParseDocExample` | server/mlabns/util/nagios_status.py:18-25 | the documented line parses to (`ndt.foo.measurement-lab.org`, `0`, `TCP OK - 0.242 second response time`) |
| `NagiosStatus.ParseAllWhitespace` | server/mlabns/util/nagios_status.py:38-40 | a line made only of whitespace is unparseable |
| `NagiosStatus.ParseFastPath` | server/mlabns/util/nagios_status.py:31-44 | with no empty piece in `split(' ', 3)`, the line parses iff there are four pieces and it is not all whitespace; the first three fields are non-empty and space-free, and the extra field is the raw remainder after the third space |
| `NagiosStatus.ParseFallbackPath` | server/mlabns/util/nagios_status.py:31-44 | with an empty piece, the line parses iff it has at least three tokens and is not all whitespace; the result is the first token's fqdn, the second token, and tokens four onward joined by single spaces, which is empty for exactly three tokens |
| `NagiosStatus.ParseFourFields` | server/mlabns/util/nagios_status.py:31-47 | `f s t extra` with space-free non-empty f, s, t and non-empty extra parses to (fqdn of f, s, extra), keeping every space inside extra |
| `NagiosStatus.ParseIgnoresStateType` | server/mlabns/util/nagios_status.py:42-47 | on the fast path: for a single-spaced line `f s t extra` with space-free non-empty f, s, t, a non-empty extra and f not all whitespace, replacing t never changes the result |
| `NagiosStatus.ParseIgnoresStateTypeFallback` | server/mlabns/util/nagios_status.py:31-47 | on the fallback path: two lines whose tokens differ at most in the third, and which are both or neither all whitespace, parse to the same result |
| `NagiosStatus.ParseUsesFirstTwoTokens` | server/mlabns/util/nagios_status.py:31-47 | on either path, a parsed line has at least three tokens, and its fqdn and state come from the first and second tokens |
| `NagiosStatus.ParseFourTokens` | server/mlabns/util/nagios_status.py:31-40 | a line with four or more tokens that is not all whitespace always parses |
| `NagiosStatus.ParseThreeTokensSingleSpaced` | server/mlabns/util/nagios_status.py:31-40 | three tokens with single spaces take the fast path and are rejected |
| `NagiosStatus.ParseThreeTokensDoubleSpaced` | server/mlabns/util/nagios_status.py:31-47 | three tokens with a doubled space take the fallback path and parse with an empty extra field |
| `UpdateHandler.Validate` | server/mlabns/handlers/update.py:25-56 | an accepted update is the parsed message, and its composite id names a stored record |
| `UpdateHandler.RequestGet` | server/mlabns/handlers/update.py:46 | `request.get`: the argument's value, or the empty string when it was not sent; `MissingSignatureRejected` shows the consequence (no contract of its own) |
| `UpdateHandler.Applied` | server/mlabns/handlers/update.py:60-72 | the updated record keeps its identity, fqdn and signing key, never loses a non-empty address, and takes the reported status and url and the server time `now` |
| `UpdateHandler.PostSpec` | server/mlabns/handlers/update.py:25-81 | "success" exactly when every check passes; "not found" leaves the rows unchanged; no record is created or removed, and each keeps its identity and signing key |
| `UpdateHandler.SliverToolTable.GetByKeyName` | server/mlabns/handlers/update.py:37 | the lookup finds a record exactly when one is stored under the id, and returns that record |
| `UpdateHandler.SliverToolTable.Put` | server/mlabns/handlers/update.py:74-79 | the record is stored under its id, and a failed write leaves the table unchanged |
| `UpdateHandler.Get` | server/mlabns/handlers/update.py:16-18 | GET always answers "not found" |
| `UpdateHandler.Post` | server/mlabns/handlers/update.py:20-81 | the answer and new rows are those of `PostSpec`; "not found" leaves the rows unchanged; no record is created or removed |
| `UpdateHandler.RejectionChangesNothing` | server/mlabns/handlers/update.py:25-56 | every rejection answers "not found" and leaves the rows unchanged |
| `UpdateHandler.FormatErrorRejected` | server/mlabns/handlers/update.py:25-30 | arguments that do not parse are rejected as a format error |
| `UpdateHandler.UnknownSliverToolRejected` | server/mlabns/handlers/update.py:32-42 | an update for an id with no record is rejected, and no record appears under that id |
| `UpdateHandler.BadSignatureRejected` | server/mlabns/handlers/update.py:44-49 | a signature over the stored key that differs from the submitted one is rejected |
| `UpdateHandler.MissingSignatureRejected` | server/mlabns/handlers/update.py:44-49 | a request without a signature argument is compared with the empty string, so it is rejected and changes nothing whenever the recomputed signature is not empty |
| `UpdateHandler.StaleTimestampRejected` | server/mlabns/handlers/update.py:51-56 | a correctly signed update whose timestamp is at most the stored one is rejected |
| `UpdateHandler.ReplayGuardExample` | server/mlabns/handlers/update.py:51-56 | with stored timestamp 1000, a submitted 1000 or 999 answers "not found" and changes nothing |
| `UpdateHandler.AcceptedIff` | server/mlabns/handlers/update.py:25-81 | "success" exactly when the update parses, its record exists, the signature matches and the timestamp is newer |
| `UpdateHandler.AcceptedUpdateFields` | server/mlabns/handlers/update.py:58-76 | on acceptance: status and url are overwritten; each address is overwritten only by a non-empty one; the timestamp becomes the server time `now`; every other field and every other record is unchanged |
| `UpdateHandler.SuccessDespiteFailedWrite` | server/mlabns/handlers/update.py:74-81 | the answer does not depend on whether the write fails, and a failed write changes nothing |
| `UpdateHandler.ReplayAfterAcceptance` | server/mlabns/handlers/update.py:51-72 | after a request is accepted and written at time `now`, the same request is accepted again exactly when its timestamp exceeds `now` |
| `UpdateHandler.RunKeepsRecordsAndKeys` | server/mlabns/handlers/update.py:32-76 | any sequence of updates keeps the same set of records, each with its identity, fqdn and signing key |
| `UpdateHandler.RunTimestampsNeverDecrease` | server/mlabns/handlers/update.py:51-72 | if the server clock never goes backward and starts at or after every stored timestamp, no stored timestamp decreases |
| `UpdateHandler.TimestampCanMoveBackward` | server/mlabns/handlers/update.py:72 | with the server clock behind the stored timestamp, an accepted update lowers it |

## Left out

- Collecting the request arguments into a dictionary (update.py:21-23) is not modelled; the request is given directly as a map from argument name to value.
- `UpdateMessage.initialize_from_dictionary` and `compute_signature` (mlabns.util.update_message) are not part of this model. They are the parameters `parse` (None stands for FormatError) and `computeSignature`, two arbitrary deterministic functions. Nothing is claimed about the signature's strength.
- `model.get_sliver_tool_id` (mlabns.db.model) is not part of this model. It is the parameter `sliverToolId`, an arbitrary deterministic function.
- The name of the signature argument, `message.SIGNATURE`, comes from mlabns.util.message, which is not part of this model; the constant `SIGNATURE` assumes "signature".
- The parsed timestamp is assumed to be an integer (`UpdateMessage.timestamp: int`). Request values are strings (update.py:23), and any conversion happens in `initialize_from_dictionary`, which is not part of this model. If that method left the timestamp a string, Python 2 would order it above every stored `long`. Line 52 would then never reject, so the replay guard would never fire. `StaleTimestampRejected`, `ReplayGuardExample`, `AcceptedIff` and `ReplayAfterAcceptance` hold only under the integer assumption.
- `time.time()` is the integer parameter `now`. The truncation by `long(...)` is assumed done.
- The datastore is an in-memory map. A failed `put()` is the flag `putFails`, which leaves the map unchanged.
- The `except` clause at update.py:77 names `TransactionFailedError`, which update.py does not import. The model takes the evident intent, swallowing a failed write. It does not model Python's lookup of that name.
- Logging, the TODO notifications and the HTTP response bodies are left out; a response is just `NotFound` or `Success`.
- A SliverTool record holds only the fields this path reads or writes, plus its identity and fqdn. The other datastore columns are left out.
- Concurrent requests are left out. Each `Post` is one atomic step over the map.
- `isspace` is modelled for Python 2 byte strings: space, tab, newline, carriage return, vertical tab and form feed. Other Unicode whitespace is not modelled.
- server/main.py (routing) and server/mlabns/db/client_signature_fetcher.py (a memcache wrapper) are not part of this model. The site, IP and status reconcilers and the cache mirror are not part of this model either.
