# Checkvist API wrapper — a Dafny model

`checkvist.py` wraps the Checkvist web API in one class, `user_account`. It
holds the account's e-mail and remote key. `send_auth` trades them for a
session token. Every other method then sends one HTTP request to a
`checkvist.com/... .json` endpoint, carrying the token and the call's
parameters, and returns the parsed JSON answer, or `False` when the status is
not 200.

The model says, for each call, exactly which request goes out and what comes
back:

- the HTTP verb;
- whether the parameters travel in the query string (`params=`) or in a form
  body (`data=`);
- the endpoint URL;
- the parameter dictionary, key by key, including which keys are sent only
  under a condition;
- the result, chosen from the status code.

The network and the JSON parser are replaced by inputs. Each call takes the
status code and the already-parsed body, and returns the request beside the
result.

Files:

- `pystr.dfy` (module `PyStr`) covers the Python string operations the
  wrapper relies on, with their laws:
  - `strip` (with `lstrip`/`rstrip`);
  - `replace` of one character by another, and by `''`;
  - `'/'.join` and its inverse `split`.
- `checkvist.dfy` (module `Checkvist`) holds the rest:
  - the string, int and bool values callers pass for flags (`PyValue`), with
    Python truthiness and `== 1` / `== 0`;
  - the parameter names (`Field`) and their wire names;
  - requests and replies;
  - URL building, response selection, tag normalisation and token
    extraction, each as a function with lemmas;
  - the class `UserAccount`, with the mutable token field and one method per
    API call.

## Model

| member | source | states |
|---|---|---|
| PyStr.Strip | checkvist.py:324 | `str.strip()`: the result has no whitespace at either end and is no longer than the input |
| PyStr.StripSlice | checkvist.py:324 | stripping cuts only whitespace, and only from the two ends: the result is a contiguous run of the input between all-whitespace edges |
| PyStr.StripMembers | checkvist.py:324 | every character of the strip comes from the input; every non-whitespace character of the input survives |
| PyStr.StripUnique | checkvist.py:324 | for any whitespace + core-without-edge-whitespace + whitespace split, `strip` returns the core |
| PyStr.StripIdempotent | checkvist.py:324 | stripping twice equals stripping once |
| PyStr.StripClean | checkvist.py:324 | a string without whitespace at its ends is its own strip |
| PyStr.LStripSlice | checkvist.py:324 | what `lstrip` drops is whitespace, and what it keeps is a suffix of the input |
| PyStr.RStripSlice | checkvist.py:324 | what `rstrip` drops is whitespace, and what it keeps is a prefix of the input |
| PyStr.Replace | checkvist.py:322 | `replace(x, y)`: same length; position by position, `x` becomes `y` and every other character is kept |
| PyStr.ReplaceBack | checkvist.py:322 | replacing `x` by `y` and then `y` by `x` restores a string that had no `y` |
| PyStr.ReplaceAbsent | checkvist.py:322 | replacing a character that does not occur changes nothing |
| PyStr.Remove | checkvist.py:59 | `replace(x, '')`: the result holds no `x` and is no longer than the input |
| PyStr.RemoveMembers | checkvist.py:59 | the characters left after removing `x` are exactly the input's characters other than `x` |
| PyStr.RemoveAppend | checkvist.py:59 | removal distributes over concatenation |
| PyStr.RemoveDelimiters | checkvist.py:59 | removing `x` from `a x b x c`, where no piece holds `x`, leaves `a b c` |
| PyStr.Join | checkvist.py:275 | the `+ '/' +` concatenation of URL segments: a single segment is itself; inverted by `Split` (SplitJoin) |
| PyStr.JoinSeparators | checkvist.py:546 | when no segment holds `/`, the joined path holds a `/` exactly when it has at least two segments |
| PyStr.SplitJoin | checkvist.py:275 | splitting a `/`-join recovers the segments when no segment holds `/` |
| Checkvist.Truthy | checkvist.py:245 | the `if x:` tests (also lines 190, 276, 317, 326, 330, 391, 393, 401, 403): among strings, ints and booleans exactly `''`, `0` and `False` are false |
| Checkvist.EqualsInt | checkvist.py:328 | the `== 1` / `== 0` tests (also lines 43, 160, 192, 194): no string equals an int; equal to a non-zero literal implies truthy, equal to 0 implies falsy, so a position `add_task` forwards is one `update_task` forwards too |
| Checkvist.EqualsIntUnique | checkvist.py:192-195 | a value equals at most one int literal, so the `== 1` and `== 0` branches of `update_list` never both apply |
| Checkvist.WireName | checkvist.py:159 | the dictionary key strings: checklist, task and comment attributes use the nested `resource[attribute]` form, the other keys are plain names |
| Checkvist.Select | checkvist.py:79-82 | the reply is the parsed body if and only if the status is 200, otherwise the failure value |
| Checkvist.SelectDiscardsErrorBody | checkvist.py:79-82 | on a non-200 status the reply does not depend on the body the server sent |
| Checkvist.WireNamesDistinct | checkvist.py:159-161 | no two parameter fields share a wire name, so no parameter can overwrite another |
| Checkvist.OnWire | checkvist.py:159-161 | the dictionary keyed by wire names holds each field's value under its wire name, and nothing else |
| Checkvist.Url | checkvist.py:135 | every endpoint starts with `http://checkvist.com/` and ends with `.json` |
| Checkvist.UrlRoundTrip | checkvist.py:275 | the id segments can be read back from the URL when none contains `/` |
| Checkvist.UrlOf2 | checkvist.py:135 | a two-segment path is the prefix, the segments with one `/` between them, and `.json` |
| Checkvist.UrlOf3 | checkvist.py:244 | the same for three segments (`checklists/<list>/tasks`) |
| Checkvist.UrlOf4 | checkvist.py:275 | the same for four segments (`checklists/<list>/tasks/<task>`) |
| Checkvist.UrlOf5 | checkvist.py:424 | the same for five segments (`.../<task>/close`) |
| Checkvist.UrlOf6 | checkvist.py:546 | the same for six segments (`.../comments/<note>`) |
| Checkvist.UnescapedIdsCollide | checkvist.py:244 | ids are not escaped: list id `1/tasks` gives the same URL as the tasks of list `1` |
| Checkvist.NormalizeTags | checkvist.py:321-324 | the result never has whitespace at its ends; with a space and no comma it holds no space and holds a comma; otherwise it is `tags.strip()` |
| Checkvist.SpacesToCommas | checkvist.py:321-322 | turning spaces into commas and then stripping a string with a space leaves no space and at least one comma |
| Checkvist.NormalizeTagsWithSpace | checkvist.py:396-397 | with a space and no comma, the result is a run of the tags, with each space turned into a comma and only whitespace cut at the ends |
| Checkvist.NormalizeTagsWithComma | checkvist.py:398-399 | tags that already hold a comma lose only their edge whitespace; inner spaces stay |
| Checkvist.NormalizeTagsIdempotent | checkvist.py:396-399 | normalising normalised tags changes nothing |
| Checkvist.NormalizeTagsRoundTrip | checkvist.py:321-322 | for tags without commas or edge whitespace, turning the commas back into spaces recovers the caller's tags |
| Checkvist.NormalizeTagsSpaced | checkvist.py:321-322 | `"a b"` becomes `"a,b"` |
| Checkvist.NormalizeTagsEdgeSpaces | checkvist.py:321-322 | `" a "` becomes `",a,"`: edge spaces become commas before the strip, so they survive |
| Checkvist.TokenOf | checkvist.py:59 | the stored token holds no `"` and has no whitespace at its ends |
| Checkvist.TokenOfQuoted | checkvist.py:59 | a JSON string answer `"token"`, with whitespace around it, yields exactly the bare token |
| Checkvist.TokenOfExample | checkvist.py:59 | the answer `"abc123"` plus a newline yields `abc123` |
| Checkvist.UserAccount.constructor | checkvist.py:30-46 | keeps the credentials; debugging is on exactly when `bugger == 1`, so off for the default `0`; no token yet |
| Checkvist.UserAccount.SendAuth | checkvist.py:57-62 | posts username and remote key to the login URL; succeeds if and only if the status is 200; on success the token becomes the answer without `"` and stripped; otherwise the token is unchanged |
| Checkvist.UserAccount.GetUser | checkvist.py:73-82 | GET `auth/curr_user` in the query string with only the token; reply selected by status |
| Checkvist.UserAccount.GetLists | checkvist.py:101-110 | GET `checklists` with only the token; reply selected by status |
| Checkvist.UserAccount.GetArchiveLists | checkvist.py:115-123 | GET `checklists` with the token and `archived=true` only |
| Checkvist.UserAccount.GetListInfo | checkvist.py:135-141 | GET `checklists/<list>` with only the token |
| Checkvist.UserAccount.CreateList | checkvist.py:144-168 | POST form with token and name always; `checklist[public]=1` present exactly when `is_public == 1`, so absent when `is_public` is omitted (default `0`); no other key |
| Checkvist.UserAccount.UpdateList | checkvist.py:171-202 | PUT form; name present exactly when non-empty; public flag 1 or 0 for `is_public` 1 or 0, and absent for any other value, so an omitted `is_public` (default `''`) or `list_name` (default `''`) is ignored |
| Checkvist.UserAccount.DeleteList | checkvist.py:215-223 | DELETE `checklists/<list>` with only the token, in a form body |
| Checkvist.UserAccount.GetTasks | checkvist.py:229-255 | GET `checklists/<list>/tasks`; `with_notes` carries `notes` itself and is present exactly when `notes` is truthy, so absent when `notes` is omitted (default `''`) |
| Checkvist.UserAccount.GetTask | checkvist.py:259-286 | GET `checklists/<list>/tasks/<task>` with the same `with_notes` rule |
| Checkvist.UserAccount.AddTask | checkvist.py:289-339 | POST form; content and normalised tags always present, even for empty or omitted tags; parent and due date exactly when non-empty; position exactly when `position == 1`; status exactly when truthy; no other key, so with every optional argument omitted (defaults `''` and position `0`) only token, content and tags are sent |
| Checkvist.UserAccount.ImportTasks | checkvist.py:354-362 | POST `checklists/<list>/import` with token and import content only |
| Checkvist.UserAccount.UpdateTask | checkvist.py:366-413 | PUT form; normalised tags always present; content, parent and due date exactly when non-empty; position exactly when truthy; no other key, so with every optional argument omitted (all default `''`) only token and tags are sent |
| Checkvist.UserAccount.CloseTask | checkvist.py:424-432 | POST `.../tasks/<task>/close` with only the token |
| Checkvist.UserAccount.ReopenTask | checkvist.py:443-451 | POST `.../tasks/<task>/reopen` with only the token |
| Checkvist.UserAccount.InvalidateTask | checkvist.py:461-469 | POST `.../tasks/<task>/invalidate` with only the token |
| Checkvist.UserAccount.DeleteTask | checkvist.py:479-487 | DELETE `checklists/<list>/tasks/<task>` with only the token, in a form body |
| Checkvist.UserAccount.GetNotes | checkvist.py:504-512 | GET `.../tasks/<task>/comments` with only the token |
| Checkvist.UserAccount.AddNote | checkvist.py:525-533 | POST `.../comments` with token and `comment[comment]` only |
| Checkvist.UserAccount.UpdateNote | checkvist.py:546-554 | PUT `.../comments/<note>` with token and `comment[comment]` only |
| Checkvist.UserAccount.DeleteNote | checkvist.py:566-574 | DELETE `.../comments/<note>` with only the token, in a form body |

Every operation method also ensures three things:

- the payload holds `token` equal to the stored token (`Carries`);
- the URL is `Url` of the operation's path segments;
- the reply is `Select(status, parsed)`.

`Select` is the status→reply rule proved above.

## Left out

- The HTTP calls (`requests.get/post/put/delete`) are network I/O. The status code and the parsed body are parameters of each operation, and the request is returned rather than sent.
- `json.loads` is a foreign parser. The parsed body is an opaque type parameter. The source parses before it looks at the status, so a non-JSON answer raises, even on an error status; the model does not capture that exception.
- Argument order: the defaults of the source (`bugger=0`, `is_public=0` in `create_list`, `list_name=''` and `is_public=''` in `update_list`, `notes=''`, and the `''` / `0` defaults of `add_task` and `update_task`) are kept as Dafny default values. In the request methods the status code and the parsed body are placed before the defaulted arguments, so those arguments can be omitted. A Python call that passes them by position corresponds to a Dafny call that passes them by name.
- The `pp.pprint` debug output and the stray `print` in `add_task` are diagnostic output only. Only the `bugger` flag is kept.
- Calling an operation before `send_auth` has succeeded raises `AttributeError` in the source, because `api_token` does not exist yet. The model makes "a token is present" a precondition (`Authenticated`).
- `send_auth` compares the status with `is 200`, an identity test. The model reads it as `== 200`, which is what it does for CPython's cached small integers.
- `strip()` is modelled with ASCII whitespace: space, tab, newline, vertical tab, form feed, carriage return. Unicode whitespace is not covered (see TokenOf below).
- Ids and `parent_id` are modelled as strings. A non-string id makes the URL concatenation raise `TypeError`. A truthy non-string `parent_id` raises `TypeError` even earlier, in the stray print concatenation of `add_task` (checkvist.py:318), before any request is sent. Neither exception is modelled.
- Flag arguments (`is_public`, `notes`, `position`, `status`) are modelled as strings, ints and booleans only. `None`, floats and other types are not covered, for example `position=1.0`, which `add_task` forwards because `1.0 == 1`, or `notes=None`, which is falsy.
- TokenOf: `r.text` is a unicode object, so the source's `strip()` also removes the separators U+001C–U+001F, U+0085, U+00A0 and other Unicode whitespace. The model strips only the ASCII set, so a token framed by such characters keeps them in the model.
- Reply: the source returns `False` both on a non-200 status and for a 200 answer whose JSON body is `false`, so its callers cannot tell the two apart. The model keeps them apart (`Parsed(false)` and `Failed`), which refines the source without losing any of its behaviour.
- The host constants are kept as written: `https` for login, `http` for every other endpoint. Nothing is proved about the difference.
- DELETE requests send the token in a form body (`data=`), because that is what the code does. The model follows the code, not a reading of the API in which it would travel in the query string.
- `update_task` documents a `status` argument that it does not take. The model follows the signature.
