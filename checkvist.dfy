/**
 * The Checkvist API wrapper `user_account`: what request each call sends
 * (verb, URL, how the parameters travel, and the parameter dictionary) and
 * what it returns for a given HTTP status and parsed JSON body.
 *
 * The network and the JSON parser are not modelled: every call takes the
 * status code and the already parsed body of the server's answer as inputs
 * and returns the request it would have sent beside its result.
 */
module Checkvist {
  import opened PyStr

  datatype Option<T> = None | Some(value: T)

  /**
   * The dynamically typed Python values the callers pass for flags such as
   * `is_public`, `position`, `status` and `notes`.
   */
  datatype PyValue = Str(s: string) | Int(i: int) | Bool(b: bool)

  /** Python truthiness: among strings, ints and booleans, exactly `''`, `0` and `False` are false. */
  function Truthy(v: PyValue): (r: bool)
    ensures !r <==> v in {Str(""), Int(0), Bool(false)}
  {
    match v
    case Str(s) => s != ""
    case Int(i) => i != 0
    case Bool(b) => b
  }

  /**
   * Python's `v == n` for an int literal `n`: True equals 1, False equals 0,
   * no string equals an int. Equal to a non-zero literal means truthy, equal
   * to 0 means falsy.
   */
  function EqualsInt(v: PyValue, n: int): (r: bool)
    ensures r ==> !v.Str?
    ensures r && n != 0 ==> Truthy(v)
    ensures r && n == 0 ==> !Truthy(v)
  {
    match v
    case Str(_) => false
    case Int(i) => i == n
    case Bool(b) => (if b then 1 else 0) == n
  }

  /** A value equals at most one int literal, so `== 1` and `== 0` never both hold. */
  lemma EqualsIntUnique(v: PyValue, m: int, n: int)
    requires EqualsInt(v, m) && EqualsInt(v, n)
    ensures m == n
  {
  }

  datatype Verb = Get | Post | Put | Delete

  /** `params=` puts the dictionary in the query string, `data=` in a form body. */
  datatype Carrier = Query | Form

  /** The parameter names the wrapper sends. */
  datatype Field =
    | Token | Username | RemoteKey | Archived
    | ChecklistName | ChecklistPublic | WithNotes
    | TaskContent | TaskParentId | TaskTags | TaskDueDate | TaskPosition | TaskStatus
    | ImportContent | CommentText

  /**
   * The name of a parameter on the wire. The attributes of a checklist, a
   * task or a comment are nested as `resource[attribute]`; the others are
   * plain names.
   */
  function WireName(f: Field): (r: string)
    ensures '[' in r <==> f !in {Token, Username, RemoteKey, Archived, WithNotes, ImportContent}
  {
    match f
    case Token => "token"
    case Username => "username"
    case RemoteKey => "remote_key"
    case Archived => "archived"
    case ChecklistName => "checklist[name]"
    case ChecklistPublic => "checklist[public]"
    case WithNotes => "with_notes"
    case TaskContent => "task[content]"
    case TaskParentId => "task[parent_id]"
    case TaskTags => "task[tags]"
    case TaskDueDate => "task[due_date]"
    case TaskPosition => "task[position]"
    case TaskStatus => "task[status]"
    case ImportContent => "import_content"
    case CommentText => "comment[comment]"
  }

  /** The parameter dictionary, keyed by field. */
  type Payload = map<Field, PyValue>

  /** The dictionary as the server sees it, keyed by wire name. */
  function OnWire(p: Payload): (w: map<string, PyValue>)
    ensures forall f :: f in p ==> WireName(f) in w && w[WireName(f)] == p[f]
    ensures forall k :: k in w ==> exists f :: f in p && WireName(f) == k
  {
    WireNamesDistinct();
    map f | f in p :: WireName(f) := p[f]
  }

  /** One call of `requests.get/post/put/delete`. */
  datatype Request = Request(verb: Verb, url: string, carrier: Carrier, payload: Payload)

  /** What an operation returns: the parsed body, or `False`. */
  datatype Reply<J> = Parsed(body: J) | Failed

  /** `requests.codes.ok` */
  const Ok := 200

  const AuthUrl := "https://checkvist.com/auth/login.json"
  const Host := "http://checkvist.com/"
  const Suffix := ".json"

  /** `key` is in the payload and holds `v`. */
  predicate Has(p: Payload, key: Field, v: PyValue) {
    key in p && p[key] == v
  }

  /** `key` holds `v` when `present`, and is absent otherwise. */
  predicate Optional(p: Payload, key: Field, present: bool, v: PyValue) {
    if present then Has(p, key, v) else key !in p
  }

  /**
   * The response selection every operation ends with: the parsed body
   * exactly when the status is 200, otherwise `False`, the body discarded.
   */
  function Select<J>(status: int, parsed: J): (r: Reply<J>)
    ensures r.Parsed? <==> status == Ok
    ensures r.Parsed? ==> r.body == parsed
  {
    if status == Ok then Parsed(parsed) else Failed
  }

  /** On a failure the reply does not depend on the body the server sent. */
  lemma SelectDiscardsErrorBody<J>(status: int, a: J, b: J)
    requires status != Ok
    ensures Select(status, a) == Select(status, b) == Failed
  {
  }

  /** No two fields share a wire name, so no parameter hides another. */
  lemma WireNamesDistinct()
    ensures forall f, g :: WireName(f) == WireName(g) ==> f == g
  {
  }

  /** The endpoint for a resource path: host, the segments joined by `/`, then `.json`. */
  function Url(segments: seq<string>): (r: string)
    ensures |r| >= |Host| + |Suffix|
    ensures r[..|Host|] == Host && r[|r| - |Suffix|..] == Suffix
  {
    Host + Join(segments, '/') + Suffix
  }

  /** The resource path of an endpoint URL, when it has the host prefix and the suffix. */
  function ResourcePath(url: string): (r: Option<seq<string>>)
    ensures r.Some? <==> |url| >= |Host| + |Suffix| && url[..|Host|] == Host && url[|url| - |Suffix|..] == Suffix
  {
    if |url| >= |Host| + |Suffix| && url[..|Host|] == Host && url[|url| - |Suffix|..] == Suffix
    then Some(Split(url[|Host|..|url| - |Suffix|], '/'))
    else None
  }

  /** Ids without a `/` can be read back from the URL they were put into. */
  lemma UrlRoundTrip(segments: seq<string>)
    requires |segments| >= 1
    requires forall k :: 0 <= k < |segments| ==> '/' !in segments[k]
    ensures ResourcePath(Url(segments)) == Some(segments)
  {
    var u := Url(segments);
    var j := Join(segments, '/');
    assert u[|Host|..|u| - |Suffix|] == j;
    SplitJoin(segments, '/');
  }

  // The URL of a path of two to six segments, spelled out as the string concatenation it is.

  lemma UrlOf2(a: string, b: string)
    ensures Url([a, b]) == Host + a + "/" + b + Suffix
  {
    assert Join([a, b], '/') == a + "/" + b;
  }

  lemma UrlOf3(a: string, b: string, c: string)
    ensures Url([a, b, c]) == Host + a + "/" + b + "/" + c + Suffix
  {
    assert Join([b, c], '/') == b + "/" + c;
    assert Join([a, b, c], '/') == a + "/" + Join([b, c], '/');
  }

  lemma UrlOf4(a: string, b: string, c: string, d: string)
    ensures Url([a, b, c, d]) == Host + a + "/" + b + "/" + c + "/" + d + Suffix
  {
    assert Join([c, d], '/') == c + "/" + d;
    assert Join([b, c, d], '/') == b + "/" + Join([c, d], '/');
    assert Join([a, b, c, d], '/') == a + "/" + Join([b, c, d], '/');
  }

  lemma UrlOf5(a: string, b: string, c: string, d: string, e: string)
    ensures Url([a, b, c, d, e]) == Host + a + "/" + b + "/" + c + "/" + d + "/" + e + Suffix
  {
    assert Join([d, e], '/') == d + "/" + e;
    assert Join([c, d, e], '/') == c + "/" + Join([d, e], '/');
    assert Join([b, c, d, e], '/') == b + "/" + Join([c, d, e], '/');
    assert Join([a, b, c, d, e], '/') == a + "/" + Join([b, c, d, e], '/');
  }

  lemma UrlOf6(a: string, b: string, c: string, d: string, e: string, f: string)
    ensures Url([a, b, c, d, e, f]) == Host + a + "/" + b + "/" + c + "/" + d + "/" + e + "/" + f + Suffix
  {
    assert Join([e, f], '/') == e + "/" + f;
    assert Join([d, e, f], '/') == d + "/" + Join([e, f], '/');
    assert Join([c, d, e, f], '/') == c + "/" + Join([d, e, f], '/');
    assert Join([b, c, d, e, f], '/') == b + "/" + Join([c, d, e, f], '/');
    assert Join([a, b, c, d, e, f], '/') == a + "/" + Join([b, c, d, e, f], '/');
  }

  /** Ids are not escaped: a list id holding `/` names a different resource. */
  lemma UnescapedIdsCollide()
    ensures Url(["checklists", "1/tasks"]) == Url(["checklists", "1", "tasks"])
  {
    assert Join(["checklists", "1", "tasks"], '/') == "checklists" + "/" + Join(["1", "tasks"], '/');
    assert Join(["1", "tasks"], '/') == "1" + "/" + Join(["tasks"], '/');
  }

  /**
   * Tag normalisation of `add_task` and `update_task`: a string with a
   * space and no comma has its spaces turned into commas; in every case
   * the result is stripped.
   */
  function NormalizeTags(tags: string): (r: string)
    ensures NoEdgeSpace(r)
    ensures ' ' in tags && ',' !in tags ==> ' ' !in r && ',' in r
    ensures !(' ' in tags && ',' !in tags) ==> r == Strip(tags)
  {
    if ' ' in tags && ',' !in tags then
      SpacesToCommas(tags);
      Strip(Replace(tags, ' ', ','))
    else
      Strip(tags)
  }

  /** Turning the spaces of a string with a space into commas, then stripping, leaves commas and no space. */
  lemma SpacesToCommas(tags: string)
    requires ' ' in tags
    ensures var r := Strip(Replace(tags, ' ', ',')); ' ' !in r && ',' in r
  {
    var replaced := Replace(tags, ' ', ',');
    var r := Strip(replaced);
    assert ' ' !in replaced by {
      forall j | 0 <= j < |replaced| ensures replaced[j] != ' ' {
        assert replaced[j] == if tags[j] == ' ' then ',' else tags[j];
      }
    }
    var k :| 0 <= k < |tags| && tags[k] == ' ';
    assert replaced[k] == ',';
    StripMembers(replaced);
    assert ',' in r && ' ' !in r by {
      assert ',' in replaced && !IsSpace(',');
    }
  }

  /**
   * Tags with a space and no comma: the result is a run of the tags, cut
   * only at whitespace, with every space of that run turned into a comma.
   */
  lemma NormalizeTagsWithSpace(tags: string) returns (i: nat)
    requires ' ' in tags && ',' !in tags
    ensures var r := NormalizeTags(tags);
      i + |r| <= |tags|
      && (forall k :: 0 <= k < |r| ==> r[k] == if tags[i + k] == ' ' then ',' else tags[i + k])
      && AllSpace(Replace(tags, ' ', ',')[..i]) && AllSpace(Replace(tags, ' ', ',')[i + |r|..])
  {
    var replaced := Replace(tags, ' ', ',');
    i := StripSlice(replaced);
  }

  /** A tag string that holds a comma loses only the whitespace at its ends; inner spaces stay. */
  lemma NormalizeTagsWithComma(tags: string) returns (i: nat)
    requires ',' in tags
    ensures var r := NormalizeTags(tags);
      i + |r| <= |tags| && r == tags[i..i + |r|]
      && AllSpace(tags[..i]) && AllSpace(tags[i + |r|..])
  {
    i := StripSlice(tags);
  }

  /** Normalising normalised tags changes nothing. */
  lemma NormalizeTagsIdempotent(tags: string)
    ensures NormalizeTags(NormalizeTags(tags)) == NormalizeTags(tags)
  {
    var r := NormalizeTags(tags);
    if ' ' in tags && ',' !in tags {
      StripClean(r);
    } else {
      StripMembers(tags);
      StripIdempotent(tags);
    }
  }

  /**
   * For tags without commas and without whitespace at the ends, turning the
   * commas back into spaces recovers the tags the caller gave.
   */
  lemma NormalizeTagsRoundTrip(tags: string)
    requires ',' !in tags && NoEdgeSpace(tags)
    ensures Replace(NormalizeTags(tags), ',', ' ') == tags
  {
    if ' ' in tags {
      var replaced := Replace(tags, ' ', ',');
      assert NoEdgeSpace(replaced);
      StripClean(replaced);
      ReplaceBack(tags, ' ', ',');
    } else {
      StripClean(tags);
      ReplaceAbsent(tags, ',', ' ');
    }
  }

  /** Space-separated tags become comma-separated tags. */
  lemma NormalizeTagsSpaced()
    ensures NormalizeTags("a b") == "a,b"
  {
    assert Replace("a b", ' ', ',') == "a,b" by {
      assert Replace("b", ' ', ',') == "b";
      assert Replace(" b", ' ', ',') == ",b";
    }
    StripClean("a,b");
    assert "a b" == ['a', ' ', 'b'];
  }

  /** Spaces at the ends are turned into commas before the strip, so they survive as commas. */
  lemma NormalizeTagsEdgeSpaces()
    ensures NormalizeTags(" a ") == ",a,"
  {
    assert Replace(" a ", ' ', ',') == ",a," by {
      assert Replace(" ", ' ', ',') == ",";
      assert Replace("a ", ' ', ',') == "a,";
    }
    StripClean(",a,");
    assert " a " == [' ', 'a', ' '];
  }

  /** The token `send_auth` keeps: the response text without any `"`, stripped. */
  function TokenOf(text: string): (r: string)
    ensures '"' !in r && NoEdgeSpace(r)
  {
    var unquoted := Remove(text, '"');
    StripMembers(unquoted);
    Strip(unquoted)
  }

  /** A JSON string answer, with whitespace around it, yields the bare token. */
  lemma TokenOfQuoted(before: string, token: string, after: string)
    requires AllSpace(before) && AllSpace(after)
    requires '"' !in token && NoEdgeSpace(token)
    ensures TokenOf(before + "\"" + token + "\"" + after) == token
  {
    assert '"' !in before by { assert forall k :: 0 <= k < |before| ==> IsSpace(before[k]); }
    assert '"' !in after by { assert forall k :: 0 <= k < |after| ==> IsSpace(after[k]); }
    RemoveDelimiters(before, token, after, '"');
    StripUnique(before, token, after);
  }

  /** The login answer `"abc123"` followed by a newline gives the token abc123. */
  lemma TokenOfExample()
    ensures TokenOf("\"abc123\"\n") == "abc123"
  {
    var token := "abc123";
    assert "\"abc123\"\n" == "" + "\"" + token + "\"" + "\n";
    assert '"' !in token && NoEdgeSpace(token) by {
      assert token == ['a', 'b', 'c', '1', '2', '3'];
    }
    assert AllSpace("") && AllSpace("\n");
    TokenOfQuoted("", token, "\n");
  }

  /**
   * One `user_account`. Arguments that have a default value keep it, so a
   * call may omit them; in the request methods they come after the status
   * code and the parsed body.
   */
  class UserAccount {
    var username: string
    var remoteKey: string
    var bugger: bool
    var apiToken: Option<string>

    /** Stores the credentials; debug output is on exactly when `bugger == 1`. No token yet. */
    constructor (userId: string, apiKey: string, bugger: PyValue := Int(0))
      ensures username == userId && remoteKey == apiKey
      ensures this.bugger <==> EqualsInt(bugger, 1)
      ensures apiToken == None
    {
      username := userId;
      remoteKey := apiKey;
      if EqualsInt(bugger, 1) {
        this.bugger := true;
      } else {
        this.bugger := false;
      }
      apiToken := None;
    }

    /** The session token has been obtained. */
    predicate Authenticated()
      reads this
    {
      apiToken.Some?
    }

    /** The payload authenticates with the stored token. */
    predicate Carries(p: Payload)
      reads this
      requires Authenticated()
    {
      Has(p, Token, Str(apiToken.value))
    }

    /**
     * Posts the credentials to the login endpoint. On status 200 the token
     * becomes the answer text without `"` and stripped, and the call
     * succeeds; otherwise the token is left as it was.
     */
    method SendAuth(status: int, text: string) returns (req: Request, ok: bool)
      modifies this`apiToken
      ensures req == Request(Post, AuthUrl, Form, map[Username := Str(username), RemoteKey := Str(remoteKey)])
      ensures ok <==> status == Ok
      ensures ok ==> apiToken == Some(TokenOf(text))
      ensures !ok ==> apiToken == old(apiToken)
    {
      req := Request(Post, AuthUrl, Form, map[Username := Str(username), RemoteKey := Str(remoteKey)]);
      if status == Ok {
        apiToken := Some(TokenOf(text));
        ok := true;
      } else {
        ok := false;
      }
    }

    // Lists

    method GetUser<J>(status: int, parsed: J) returns (req: Request, res: Reply<J>)
      requires Authenticated()
      ensures req.verb == Get && req.carrier == Query
      ensures req.url == Url(["auth", "curr_user"])
      ensures Carries(req.payload) && req.payload.Keys == {Token}
      ensures res == Select(status, parsed)
    {
      var url := Url(["auth", "curr_user"]);
      var payload := map[Token := Str(apiToken.value)];
      req := Request(Get, url, Query, payload);
      res := Select(status, parsed);
    }

    method GetLists<J>(status: int, parsed: J) returns (req: Request, res: Reply<J>)
      requires Authenticated()
      ensures req.verb == Get && req.carrier == Query
      ensures req.url == Url(["checklists"])
      ensures Carries(req.payload) && req.payload.Keys == {Token}
      ensures res == Select(status, parsed)
    {
      var url := Url(["checklists"]);
      var payload := map[Token := Str(apiToken.value)];
      req := Request(Get, url, Query, payload);
      res := Select(status, parsed);
    }

    method GetArchiveLists<J>(status: int, parsed: J) returns (req: Request, res: Reply<J>)
      requires Authenticated()
      ensures req.verb == Get && req.carrier == Query
      ensures req.url == Url(["checklists"])
      ensures Carries(req.payload) && Has(req.payload, Archived, Str("true"))
      ensures req.payload.Keys == {Token, Archived}
      ensures res == Select(status, parsed)
    {
      var url := Url(["checklists"]);
      var payload := map[Token := Str(apiToken.value), Archived := Str("true")];
      req := Request(Get, url, Query, payload);
      res := Select(status, parsed);
    }

    method GetListInfo<J>(listId: string, status: int, parsed: J) returns (req: Request, res: Reply<J>)
      requires Authenticated()
      ensures req.verb == Get && req.carrier == Query
      ensures req.url == Url(["checklists", listId])
      ensures Carries(req.payload) && req.payload.Keys == {Token}
      ensures res == Select(status, parsed)
    {
      var url := Url(["checklists", listId]);
      var payload := map[Token := Str(apiToken.value)];
      req := Request(Get, url, Query, payload);
      res := Select(status, parsed);
    }

    /** The name is always sent; the public flag only when `is_public == 1`. */
    method CreateList<J>(listName: string, status: int, parsed: J, isPublic: PyValue := Int(0))
      returns (req: Request, res: Reply<J>)
      requires Authenticated()
      ensures req.verb == Post && req.carrier == Form
      ensures req.url == Url(["checklists"])
      ensures Carries(req.payload) && Has(req.payload, ChecklistName, Str(listName))
      ensures Optional(req.payload, ChecklistPublic, EqualsInt(isPublic, 1), Int(1))
      ensures req.payload.Keys <= {Token, ChecklistName, ChecklistPublic}
      ensures res == Select(status, parsed)
    {
      var url := Url(["checklists"]);
      var payload := map[Token := Str(apiToken.value), ChecklistName := Str(listName)];
      if EqualsInt(isPublic, 1) {
        payload := payload[ChecklistPublic := Int(1)];
      }
      req := Request(Post, url, Form, payload);
      res := Select(status, parsed);
    }

    /**
     * The name is sent only when non-empty; the public flag is sent as 1 or
     * 0 for `is_public` equal to 1 or 0, and left out for anything else,
     * such as the default `''`.
     */
    method UpdateList<J>(listId: string, status: int, parsed: J, listName: string := "", isPublic: PyValue := Str(""))
      returns (req: Request, res: Reply<J>)
      requires Authenticated()
      ensures req.verb == Put && req.carrier == Form
      ensures req.url == Url(["checklists", listId])
      ensures Carries(req.payload)
      ensures Optional(req.payload, ChecklistName, listName != "", Str(listName))
      ensures EqualsInt(isPublic, 1) ==> Has(req.payload, ChecklistPublic, Int(1))
      ensures EqualsInt(isPublic, 0) ==> Has(req.payload, ChecklistPublic, Int(0))
      ensures ChecklistPublic in req.payload <==> EqualsInt(isPublic, 1) || EqualsInt(isPublic, 0)
      ensures req.payload.Keys <= {Token, ChecklistName, ChecklistPublic}
      ensures res == Select(status, parsed)
    {
      var url := Url(["checklists", listId]);
      var payload := map[Token := Str(apiToken.value)];
      if listName != "" {
        payload := payload[ChecklistName := Str(listName)];
      }
      if EqualsInt(isPublic, 1) {
        payload := payload[ChecklistPublic := Int(1)];
      } else if EqualsInt(isPublic, 0) {
        payload := payload[ChecklistPublic := Int(0)];
      }
      req := Request(Put, url, Form, payload);
      res := Select(status, parsed);
    }

    method DeleteList<J>(listId: string, status: int, parsed: J) returns (req: Request, res: Reply<J>)
      requires Authenticated()
      ensures req.verb == Delete && req.carrier == Form
      ensures req.url == Url(["checklists", listId])
      ensures Carries(req.payload) && req.payload.Keys == {Token}
      ensures res == Select(status, parsed)
    {
      var url := Url(["checklists", listId]);
      var payload := map[Token := Str(apiToken.value)];
      req := Request(Delete, url, Form, payload);
      res := Select(status, parsed);
    }

    // Tasks

    /** `with_notes` is sent, carrying `notes` itself, only when `notes` is truthy. */
    method GetTasks<J>(listId: string, status: int, parsed: J, notes: PyValue := Str(""))
      returns (req: Request, res: Reply<J>)
      requires Authenticated()
      ensures req.verb == Get && req.carrier == Query
      ensures req.url == Url(["checklists", listId, "tasks"])
      ensures Carries(req.payload) && Optional(req.payload, WithNotes, Truthy(notes), notes)
      ensures req.payload.Keys <= {Token, WithNotes}
      ensures res == Select(status, parsed)
    {
      var url := Url(["checklists", listId, "tasks"]);
      var payload;
      if Truthy(notes) {
        payload := map[Token := Str(apiToken.value), WithNotes := notes];
      } else {
        payload := map[Token := Str(apiToken.value)];
      }
      req := Request(Get, url, Query, payload);
      res := Select(status, parsed);
    }

    method GetTask<J>(listId: string, taskId: string, status: int, parsed: J, notes: PyValue := Str(""))
      returns (req: Request, res: Reply<J>)
      requires Authenticated()
      ensures req.verb == Get && req.carrier == Query
      ensures req.url == Url(["checklists", listId, "tasks", taskId])
      ensures Carries(req.payload) && Optional(req.payload, WithNotes, Truthy(notes), notes)
      ensures req.payload.Keys <= {Token, WithNotes}
      ensures res == Select(status, parsed)
    {
      var url := Url(["checklists", listId, "tasks", taskId]);
      var payload;
      if Truthy(notes) {
        payload := map[Token := Str(apiToken.value), WithNotes := notes];
      } else {
        payload := map[Token := Str(apiToken.value)];
      }
      req := Request(Get, url, Query, payload);
      res := Select(status, parsed);
    }

    /**
     * Content and normalised tags are always sent; parent, due date and
     * status only when truthy; the position only when it equals 1.
     */
    method AddTask<J>(listId: string, content: string, status: int, parsed: J,
                      parentId: string := "", tags: string := "", dueDate: string := "",
                      position: PyValue := Int(0), taskStatus: PyValue := Str(""))
      returns (req: Request, res: Reply<J>)
      requires Authenticated()
      ensures req.verb == Post && req.carrier == Form
      ensures req.url == Url(["checklists", listId, "tasks"])
      ensures Carries(req.payload) && Has(req.payload, TaskContent, Str(content))
      ensures Has(req.payload, TaskTags, Str(NormalizeTags(tags)))
      ensures Optional(req.payload, TaskParentId, parentId != "", Str(parentId))
      ensures Optional(req.payload, TaskDueDate, dueDate != "", Str(dueDate))
      ensures Optional(req.payload, TaskPosition, EqualsInt(position, 1), position)
      ensures Optional(req.payload, TaskStatus, Truthy(taskStatus), taskStatus)
      ensures req.payload.Keys <= {Token, TaskContent, TaskParentId, TaskTags,
                                   TaskDueDate, TaskPosition, TaskStatus}
      ensures res == Select(status, parsed)
    {
      var url := Url(["checklists", listId, "tasks"]);
      var payload := map[Token := Str(apiToken.value)];
      payload := payload[TaskContent := Str(content)];
      if parentId != "" {
        payload := payload[TaskParentId := Str(parentId)];
      }
      payload := payload[TaskTags := Str(NormalizeTags(tags))];
      if dueDate != "" {
        payload := payload[TaskDueDate := Str(dueDate)];
      }
      if EqualsInt(position, 1) {
        payload := payload[TaskPosition := position];
      }
      if Truthy(taskStatus) {
        payload := payload[TaskStatus := taskStatus];
      }
      req := Request(Post, url, Form, payload);
      res := Select(status, parsed);
    }

    method ImportTasks<J>(listId: string, importContent: string, status: int, parsed: J)
      returns (req: Request, res: Reply<J>)
      requires Authenticated()
      ensures req.verb == Post && req.carrier == Form
      ensures req.url == Url(["checklists", listId, "import"])
      ensures Carries(req.payload) && Has(req.payload, ImportContent, Str(importContent))
      ensures req.payload.Keys == {Token, ImportContent}
      ensures res == Select(status, parsed)
    {
      var url := Url(["checklists", listId, "import"]);
      var payload := map[Token := Str(apiToken.value), ImportContent := Str(importContent)];
      req := Request(Post, url, Form, payload);
      res := Select(status, parsed);
    }

    /**
     * Normalised tags are always sent; content, parent and due date only
     * when non-empty; the position whenever it is truthy.
     */
    method UpdateTask<J>(listId: string, taskId: string, status: int, parsed: J,
                         content: string := "", parentId: string := "", tags: string := "",
                         dueDate: string := "", position: PyValue := Str(""))
      returns (req: Request, res: Reply<J>)
      requires Authenticated()
      ensures req.verb == Put && req.carrier == Form
      ensures req.url == Url(["checklists", listId, "tasks", taskId])
      ensures Carries(req.payload) && Has(req.payload, TaskTags, Str(NormalizeTags(tags)))
      ensures Optional(req.payload, TaskContent, content != "", Str(content))
      ensures Optional(req.payload, TaskParentId, parentId != "", Str(parentId))
      ensures Optional(req.payload, TaskDueDate, dueDate != "", Str(dueDate))
      ensures Optional(req.payload, TaskPosition, Truthy(position), position)
      ensures req.payload.Keys <= {Token, TaskContent, TaskParentId, TaskTags,
                                   TaskDueDate, TaskPosition}
      ensures res == Select(status, parsed)
    {
      var url := Url(["checklists", listId, "tasks", taskId]);
      var payload := map[Token := Str(apiToken.value)];
      if content != "" {
        payload := payload[TaskContent := Str(content)];
      }
      if parentId != "" {
        payload := payload[TaskParentId := Str(parentId)];
      }
      payload := payload[TaskTags := Str(NormalizeTags(tags))];
      if dueDate != "" {
        payload := payload[TaskDueDate := Str(dueDate)];
      }
      if Truthy(position) {
        payload := payload[TaskPosition := position];
      }
      req := Request(Put, url, Form, payload);
      res := Select(status, parsed);
    }

    method CloseTask<J>(listId: string, taskId: string, status: int, parsed: J) returns (req: Request, res: Reply<J>)
      requires Authenticated()
      ensures req.verb == Post && req.carrier == Form
      ensures req.url == Url(["checklists", listId, "tasks", taskId, "close"])
      ensures Carries(req.payload) && req.payload.Keys == {Token}
      ensures res == Select(status, parsed)
    {
      var url := Url(["checklists", listId, "tasks", taskId, "close"]);
      var payload := map[Token := Str(apiToken.value)];
      req := Request(Post, url, Form, payload);
      res := Select(status, parsed);
    }

    method ReopenTask<J>(listId: string, taskId: string, status: int, parsed: J) returns (req: Request, res: Reply<J>)
      requires Authenticated()
      ensures req.verb == Post && req.carrier == Form
      ensures req.url == Url(["checklists", listId, "tasks", taskId, "reopen"])
      ensures Carries(req.payload) && req.payload.Keys == {Token}
      ensures res == Select(status, parsed)
    {
      var url := Url(["checklists", listId, "tasks", taskId, "reopen"]);
      var payload := map[Token := Str(apiToken.value)];
      req := Request(Post, url, Form, payload);
      res := Select(status, parsed);
    }

    method InvalidateTask<J>(listId: string, taskId: string, status: int, parsed: J) returns (req: Request, res: Reply<J>)
      requires Authenticated()
      ensures req.verb == Post && req.carrier == Form
      ensures req.url == Url(["checklists", listId, "tasks", taskId, "invalidate"])
      ensures Carries(req.payload) && req.payload.Keys == {Token}
      ensures res == Select(status, parsed)
    {
      var url := Url(["checklists", listId, "tasks", taskId, "invalidate"]);
      var payload := map[Token := Str(apiToken.value)];
      req := Request(Post, url, Form, payload);
      res := Select(status, parsed);
    }

    method DeleteTask<J>(listId: string, taskId: string, status: int, parsed: J) returns (req: Request, res: Reply<J>)
      requires Authenticated()
      ensures req.verb == Delete && req.carrier == Form
      ensures req.url == Url(["checklists", listId, "tasks", taskId])
      ensures Carries(req.payload) && req.payload.Keys == {Token}
      ensures res == Select(status, parsed)
    {
      var url := Url(["checklists", listId, "tasks", taskId]);
      var payload := map[Token := Str(apiToken.value)];
      req := Request(Delete, url, Form, payload);
      res := Select(status, parsed);
    }

    // Notes

    method GetNotes<J>(listId: string, taskId: string, status: int, parsed: J) returns (req: Request, res: Reply<J>)
      requires Authenticated()
      ensures req.verb == Get && req.carrier == Query
      ensures req.url == Url(["checklists", listId, "tasks", taskId, "comments"])
      ensures Carries(req.payload) && req.payload.Keys == {Token}
      ensures res == Select(status, parsed)
    {
      var url := Url(["checklists", listId, "tasks", taskId, "comments"]);
      var payload := map[Token := Str(apiToken.value)];
      req := Request(Get, url, Query, payload);
      res := Select(status, parsed);
    }

    method AddNote<J>(listId: string, taskId: string, comment: string, status: int, parsed: J)
      returns (req: Request, res: Reply<J>)
      requires Authenticated()
      ensures req.verb == Post && req.carrier == Form
      ensures req.url == Url(["checklists", listId, "tasks", taskId, "comments"])
      ensures Carries(req.payload) && Has(req.payload, CommentText, Str(comment))
      ensures req.payload.Keys == {Token, CommentText}
      ensures res == Select(status, parsed)
    {
      var url := Url(["checklists", listId, "tasks", taskId, "comments"]);
      var payload := map[Token := Str(apiToken.value), CommentText := Str(comment)];
      req := Request(Post, url, Form, payload);
      res := Select(status, parsed);
    }

    method UpdateNote<J>(listId: string, taskId: string, noteId: string, comment: string, status: int, parsed: J)
      returns (req: Request, res: Reply<J>)
      requires Authenticated()
      ensures req.verb == Put && req.carrier == Form
      ensures req.url == Url(["checklists", listId, "tasks", taskId, "comments", noteId])
      ensures Carries(req.payload) && Has(req.payload, CommentText, Str(comment))
      ensures req.payload.Keys == {Token, CommentText}
      ensures res == Select(status, parsed)
    {
      var url := Url(["checklists", listId, "tasks", taskId, "comments", noteId]);
      var payload := map[Token := Str(apiToken.value), CommentText := Str(comment)];
      req := Request(Put, url, Form, payload);
      res := Select(status, parsed);
    }

    method DeleteNote<J>(listId: string, taskId: string, noteId: string, status: int, parsed: J)
      returns (req: Request, res: Reply<J>)
      requires Authenticated()
      ensures req.verb == Delete && req.carrier == Form
      ensures req.url == Url(["checklists", listId, "tasks", taskId, "comments", noteId])
      ensures Carries(req.payload) && req.payload.Keys == {Token}
      ensures res == Select(status, parsed)
    {
      var url := Url(["checklists", listId, "tasks", taskId, "comments", noteId]);
      var payload := map[Token := Str(apiToken.value)];
      req := Request(Delete, url, Form, payload);
      res := Select(status, parsed);
    }
  }
}
