/** The two task-bridge handlers (api/graph.js): bearer-token extraction,
    the 401 guard, and the shaping of the upstream task API's answer. The
    upstream API is a function parameter; every call made to it is
    recorded, so "the upstream is never called" is a statement about the
    recorded calls. */
module Graph {
  import opened Options
  import opened Json
  import opened Http

  const Bearer: string := "Bearer "

  // ------------------------------------------------- String.prototype.replace

  /** `pat` occurs in `s` starting at index `i`. */
  predicate OccursAt(s: string, pat: string, i: nat) {
    i + |pat| <= |s| && s[i..i + |pat|] == pat
  }

  /** The first index at or after `from` where `pat` occurs in `s`. */
  function IndexOf(s: string, pat: string, from: nat): (r: Option<nat>)
    decreases |s| - from
    ensures r.Some? ==> from <= r.value && OccursAt(s, pat, r.value)
    ensures r.Some? ==> forall j :: from <= j < r.value ==> !OccursAt(s, pat, j)
    ensures r.None? ==> forall j :: from <= j ==> !OccursAt(s, pat, j)
  {
    if from + |pat| > |s| then None
    else if OccursAt(s, pat, from) then Some(from)
    else IndexOf(s, pat, from + 1)
  }

  /** `s.replace(pat, rep)` with a string pattern: the FIRST occurrence of
      `pat`, wherever it is, is replaced; with no occurrence `s` is
      returned unchanged. */
  function ReplaceFirst(s: string, pat: string, rep: string): string {
    match IndexOf(s, pat, 0)
    case None => s
    case Some(i) => s[..i] + rep + s[i + |pat|..]
  }

  /** `request.headers.get('Authorization')?.replace('Bearer ', '')`:
      `None` is `undefined` (no header). */
  function AccessToken(header: Option<string>): Option<string> {
    match header
    case None => None
    case Some(h) => Some(ReplaceFirst(h, Bearer, ""))
  }

  /** JavaScript truthiness of the token: `undefined` and `""` are falsy. */
  predicate HasToken(token: Option<string>) {
    token.Some? && token.value != ""
  }

  /** A header without `Bearer ` in it is passed through unchanged. */
  lemma TokenWithoutBearer(h: string)
    requires forall j :: !OccursAt(h, Bearer, j)
    ensures AccessToken(Some(h)) == Some(h)
  {
  }

  /** `Bearer ` can only start at a `B`, and its other characters are not `B`,
      so an occurrence cannot straddle the end of a prefix free of it. */
  lemma {:induction false} FirstOccurrenceAfter(p: string, t: string)
    requires forall j :: !OccursAt(p, Bearer, j)
    ensures IndexOf(p + Bearer + t, Bearer, 0) == Some(|p|)
  {
    var s := p + Bearer + t;
    assert s[|p|..|p| + |Bearer|] == Bearer;
    assert OccursAt(s, Bearer, |p|);
    forall j | 0 <= j < |p|
      ensures !OccursAt(s, Bearer, j)
    {
      if j + |Bearer| <= |p| {
        assert s[j..j + |Bearer|] == p[j..j + |Bearer|];
        assert !OccursAt(p, Bearer, j);
      } else if j + |Bearer| <= |s| {
        var m := |p| - j;
        assert 1 <= m < |Bearer|;
        assert s[j..j + |Bearer|][m] == s[|p|] == 'B';
        assert Bearer[m] != 'B';
      }
    }
  }

  /** Only the first `Bearer ` is removed: everything before it and
      everything after it, further `Bearer ` included, is kept. */
  lemma TokenStripsFirstOccurrence(p: string, t: string)
    requires forall j :: !OccursAt(p, Bearer, j)
    ensures AccessToken(Some(p + Bearer + t)) == Some(p + t)
  {
    FirstOccurrenceAfter(p, t);
    var s := p + Bearer + t;
    assert s[..|p|] + "" + s[|p| + |Bearer|..] == p + t;
  }

  /** The usual case: `Bearer <t>` yields `<t>`, even when `t` itself
      contains `Bearer `. */
  lemma TokenOfBearerHeader(t: string)
    ensures AccessToken(Some(Bearer + t)) == Some(t)
  {
    var p: string := "";
    assert p + Bearer + t == Bearer + t && p + t == t;
    TokenStripsFirstOccurrence(p, t);
  }

  /** The guard rejects exactly: no header, an empty header, and a header
      that is `Bearer ` and nothing else. */
  lemma {:induction false} TokenFalsyExactly(header: Option<string>)
    ensures !HasToken(AccessToken(header)) <==> header.None? || header.value == "" || header.value == Bearer
  {
    if header.Some? {
      var h := header.value;
      match IndexOf(h, Bearer, 0)
      case None =>
        assert !OccursAt(h, Bearer, 0);
      case Some(i) =>
        var r := h[..i] + h[i + |Bearer|..];
        assert h[..i] + "" + h[i + |Bearer|..] == r;
        assert AccessToken(header) == Some(r);
        if r == "" {
          assert |h| == |Bearer| && i == 0;
          assert h == h[0..|Bearer|];
        }
        if h == Bearer {
          assert OccursAt(h, Bearer, 0);
        }
    }
  }

  // ------------------------------------------------------------- handlers

  const NoTokenError: string := "No access token provided"
  const ListError: string := "Failed to fetch tasks"
  const CreateError: string := "Failed to create task"
  const TasksPath: string := "/me/planner/tasks"
  const CreatePath: string := "/planner/tasks"

  datatype Verb = Get | Post

  /** One request to the upstream task API, with the bearer token it carries. */
  datatype UpstreamCall = UpstreamCall(token: string, verb: Verb, path: string, payload: Option<Json>)

  /** The upstream's answer: a parsed JSON body, or a thrown error. */
  datatype UpstreamResult = Threw | Returned(value: Json)

  /** A handler's response together with the upstream calls it made. */
  datatype Exchange = Exchange(response: Response, calls: seq<UpstreamCall>)

  /** `v.value` in JavaScript: `None` when reading it throws (`v` is `null`),
      `Some(None)` when it is `undefined`. */
  function ValueField(v: Json): Option<Option<Json>>
  {
    if v.JNull? then None
    else if v.JObj? && "value" in v.fields then Some(Some(v.fields["value"]))
    else Some(None)
  }

  /** graph-tasks. */
  function GraphTasks(header: Option<string>, upstream: UpstreamCall -> UpstreamResult): (x: Exchange)
    ensures !HasToken(AccessToken(header)) <==> x.response == ErrorResponse(401, NoTokenError)
    ensures x.response.status == 401 ==> x.calls == []
    ensures HasToken(AccessToken(header)) ==>
      x.calls == [UpstreamCall(AccessToken(header).value, Get, TasksPath, None)]
    ensures x.response.status in {200, 401, 500}
    ensures x.response.status == 500 ==> x.response == ErrorResponse(500, ListError)
    ensures x.response.status == 200 <==>
      HasToken(AccessToken(header)) && upstream(x.calls[0]).Returned? && !upstream(x.calls[0]).value.JNull?
    ensures x.response.status == 200 ==>
      var tasks := upstream(x.calls[0]).value;
      x.response.body == if tasks.JObj? && "value" in tasks.fields then Some(tasks.fields["value"]) else None
  {
    var token := AccessToken(header);
    if !HasToken(token) then Exchange(ErrorResponse(401, NoTokenError), [])
    else
      var call := UpstreamCall(token.value, Get, TasksPath, None);
      match upstream(call)
      case Threw => Exchange(ErrorResponse(500, ListError), [call])
      case Returned(tasks) =>
        match ValueField(tasks)
        case None => Exchange(ErrorResponse(500, ListError), [call])
        case Some(value) => Exchange(Response(200, value), [call])
  }

  /** graph-create-task. `body` is `None` when the request body is not JSON;
      it is read only after the guard. */
  function GraphCreateTask(header: Option<string>, body: Option<Json>, upstream: UpstreamCall -> UpstreamResult): (x: Exchange)
    ensures !HasToken(AccessToken(header)) <==> x.response == ErrorResponse(401, NoTokenError)
    ensures x.response.status == 401 ==> x.calls == []
    ensures HasToken(AccessToken(header)) && body.None? ==> x == Exchange(ErrorResponse(500, CreateError), [])
    ensures HasToken(AccessToken(header)) && body.Some? ==>
      x.calls == [UpstreamCall(AccessToken(header).value, Post, CreatePath, body)]
    ensures x.response.status in {201, 401, 500}
    ensures x.response.status == 500 ==> x.response == ErrorResponse(500, CreateError)
    ensures x.response.status == 201 <==>
      HasToken(AccessToken(header)) && body.Some? && upstream(x.calls[0]).Returned?
    ensures x.response.status == 201 ==> x.response.body == Some(upstream(x.calls[0]).value)
  {
    var token := AccessToken(header);
    if !HasToken(token) then Exchange(ErrorResponse(401, NoTokenError), [])
    else if body.None? then Exchange(ErrorResponse(500, CreateError), [])
    else
      var call := UpstreamCall(token.value, Post, CreatePath, body);
      match upstream(call)
      case Threw => Exchange(ErrorResponse(500, CreateError), [call])
      case Returned(task) => Exchange(Response(201, Some(task)), [call])
  }
}
