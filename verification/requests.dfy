/**
 * The one HTTP request each handler issues: method, URL, headers and JSON body.
 * URLs are built by plain concatenation of the argument strings onto the base.
 */
module Requests {
  import opened Wrappers
  import opened Schema
  import opened Registry

  datatype Method = Get | Post | Put

  type Header = (string, string)

  /** The request as `fetch` receives it; the body lists the JSON object's fields in order. */
  datatype Request = Request(verb: Method, url: string, headers: seq<Header>, body: Option<seq<(string, Json)>>)

  const Base := "https://ba.kul.to/api"

  const JsonContent: Header := ("Content-Type", "application/json")

  function Bearer(key: string): Header
  {
    ("Authorization", "Bearer " + key)
  }

  /** The header names of a request include `name`. */
  predicate HasHeader(headers: seq<Header>, name: string)
  {
    exists i :: 0 <= i < |headers| && headers[i].0 == name
  }

  /** `JSON.stringify` drops a field whose value is `undefined`. */
  function Field(name: string, v: Option<Json>): seq<(string, Json)>
  {
    if v.Some? then [(name, v.value)] else []
  }

  /** The handlers that return without a request when the resolved key is empty. */
  predicate NeedsKeyCall(c: Call)
  {
    NeedsKey(ToolOf(c))
  }

  /** The handler reaches `fetch`: it is not a key-dependent handler facing an empty key. */
  predicate Sends(c: Call, key: string)
  {
    !((NeedsKeyCall(c) || c.KeyStatus?) && key == "")
  }

  /** Only registration and the three authenticated tools write; everything else is a GET. */
  function Verb(c: Call): (v: Method)
    ensures v != Get <==> c.Register? || NeedsKeyCall(c)
  {
    match c
    case Register(_, _) => Post
    case RotateKey => Post
    case Create(_, _) => Post
    case Update(_, _) => Put
    case _ => Get
  }

  /** The path after the base URL, spliced together from the arguments as they are. */
  function Path(c: Call): (p: string)
    ensures |p| > 1 && p[0] == '/'
    ensures c.Update? || c.FetchDataset? || c.FetchSchema? ==> "/datasets/" <= p
    ensures c.Update? || c.FetchDataset? ==> |c.datasetId| <= |p| && p[|p| - |c.datasetId|..] == c.datasetId
  {
    match c
    case CheckHealth => "/health"
    case Register(_, _) => "/register"
    case RotateKey => "/rotate-key"
    case Create(_, _) => "/datasets"
    case Update(datasetId, _) => "/datasets/" + datasetId
    case FetchDataset(owner, datasetId) => "/datasets/" + owner + "/" + datasetId
    case FetchSchema(owner, datasetId) => "/datasets/" + owner + "/" + datasetId + "/schema"
    case KeyStatus => "/health"
  }

  /**
   * The authenticated tools send their key as a bearer token; every write declares
   * a JSON body; GET requests carry no headers.
   */
  function Headers(c: Call, key: string): (h: seq<Header>)
    ensures HasHeader(h, "Authorization") <==> NeedsKeyCall(c)
    ensures forall i :: 0 <= i < |h| ==> h[i] == JsonContent || h[i] == Bearer(key)
    ensures h == [] <==> Verb(c) == Get
    ensures Verb(c) != Get ==> JsonContent in h
  {
    var h := match c
      case Register(_, _) => [JsonContent]
      case RotateKey => [Bearer(key), JsonContent]
      case Create(_, _) => [Bearer(key), JsonContent]
      case Update(_, _) => [Bearer(key), JsonContent]
      case _ => [];
    assert NeedsKeyCall(c) ==> h[0].0 == "Authorization";
    h
  }

  /** The JSON object sent as the body, if any. */
  function Body(c: Call): (b: Option<seq<(string, Json)>>)
    ensures b.Some? ==> Verb(c) != Get
    ensures b.Some? ==> forall i :: 0 <= i < |b.value| ==> b.value[i].0 in Names(Contract(ToolOf(c)))
  {
    var declared := Contract(ToolOf(c));
    match c
    case Register(username, password) =>
      assert declared[0].name == "username" && declared[1].name == "password";
      Some([("username", JString(username)), ("password", JString(password))])
    case Create(name, data) =>
      assert declared[0].name == "name" && declared[1].name == "data";
      Some([("name", JString(name))] + Field("data", data))
    case Update(_, data) =>
      assert declared[1].name == "data";
      Some(Field("data", data))
    case _ => None
  }

  /**
   * The request a handler issues given the resolved key, or `None` when it returns
   * before reaching `fetch` (an empty key for the three authenticated tools and
   * for the key status check).
   */
  function Plan(c: Call, key: string): (r: Option<Request>)
    ensures r.Some? <==> Sends(c, key)
  {
    if Sends(c, key) then Some(Request(Verb(c), Base + Path(c), Headers(c, key), Body(c))) else None
  }

  /** Reference table of endpoints: the path segments of each call. */
  function Segments(c: Call): seq<string>
  {
    match c
    case CheckHealth => ["health"]
    case Register(_, _) => ["register"]
    case RotateKey => ["rotate-key"]
    case Create(_, _) => ["datasets"]
    case Update(id, _) => ["datasets", id]
    case FetchDataset(owner, id) => ["datasets", owner, id]
    case FetchSchema(owner, id) => ["datasets", owner, id, "schema"]
    case KeyStatus => ["health"]
  }

  /** A path: each segment preceded by a slash, with nothing escaped. */
  function Join(segments: seq<string>): (p: string)
    ensures p != [] ==> p[0] == '/'
    ensures segments != [] ==> p != []
  {
    if segments == [] then "" else "/" + segments[0] + Join(segments[1..])
  }

  predicate SlashFree(s: string)
  {
    forall i :: 0 <= i < |s| ==> s[i] != '/'
  }

  /** The index of the first slash at or after `j`, or the length of `p`. */
  function NextSlash(p: string, j: nat): (i: nat)
    requires j <= |p|
    ensures j <= i <= |p|
    ensures forall k :: j <= k < i ==> p[k] != '/'
    ensures i < |p| ==> p[i] == '/'
    decreases |p| - j
  {
    if j == |p| || p[j] == '/' then j else NextSlash(p, j + 1)
  }

  /** How a server reads a path back into segments: split after each slash. */
  function Split(p: string): seq<string>
    decreases |p|
  {
    if p == [] then []
    else
      var i := NextSlash(p, 1);
      [p[1..i]] + Split(p[i..])
  }

  /** `NextSlash` finds the first slash: any index with its three properties is it. */
  lemma {:induction false} NextSlashAt(p: string, j: nat, i: nat)
    requires j <= i <= |p|
    requires forall k :: j <= k < i ==> p[k] != '/'
    requires i < |p| ==> p[i] == '/'
    ensures NextSlash(p, j) == i
    decreases i - j
  {
    if j < i {
      NextSlashAt(p, j + 1, i);
    }
  }

  /** When no segment holds a slash, the path gives the segments back. */
  lemma {:induction false} SplitJoin(segments: seq<string>)
    requires forall k :: 0 <= k < |segments| ==> SlashFree(segments[k])
    ensures Split(Join(segments)) == segments
  {
    if segments != [] {
      var s, rest := segments[0], Join(segments[1..]);
      var p := Join(segments);
      assert p == "/" + s + rest;
      NextSlashAt(p, 1, 1 + |s|);
      assert p[1..1 + |s|] == s;
      assert p[1 + |s|..] == rest;
      SplitJoin(segments[1..]);
    }
  }

  lemma JoinOne(a: string)
    ensures Join([a]) == "/" + a
  {
    assert [a][1..] == [];
  }

  lemma JoinDatasetId(id: string)
    ensures Join(["datasets", id]) == "/datasets/" + id
  {
    assert ["datasets", id][1..] == [id];
    JoinOne(id);
    assert "/" + "datasets" + ("/" + id) == ("/" + "datasets" + "/") + id;
    assert "/" + "datasets" + "/" == "/datasets/";
  }

  lemma JoinOwnerId(owner: string, id: string)
    ensures Join(["datasets", owner, id]) == "/datasets/" + owner + "/" + id
  {
    assert ["datasets", owner, id][1..] == [owner, id];
    assert [owner, id][1..] == [id];
    JoinOne(id);
    assert Join([owner, id]) == "/" + owner + "/" + id;
    assert "/" + "datasets" + ("/" + owner + "/" + id) == ("/" + "datasets" + "/") + owner + "/" + id;
    assert "/" + "datasets" + "/" == "/datasets/";
  }

  lemma JoinOwnerIdSchema(owner: string, id: string)
    ensures Join(["datasets", owner, id, "schema"]) == "/datasets/" + owner + "/" + id + "/schema"
  {
    assert ["datasets", owner, id, "schema"][1..] == [owner, id, "schema"];
    assert [owner, id, "schema"][1..] == [id, "schema"];
    assert [id, "schema"][1..] == ["schema"];
    JoinOne("schema");
    assert Join([id, "schema"]) == "/" + id + "/schema";
    assert Join([owner, id, "schema"]) == "/" + owner + "/" + id + "/schema";
    assert "/" + "datasets" + ("/" + owner + "/" + id + "/schema")
        == ("/" + "datasets" + "/") + owner + "/" + id + "/schema";
    assert "/" + "datasets" + "/" == "/datasets/";
  }

  /** Every request goes to the base URL followed by the endpoint's segments, each after a slash. */
  lemma PathFollowsSegments(c: Call)
    ensures Path(c) == Join(Segments(c))
  {
    match c
    case CheckHealth => JoinOne("health");
    case KeyStatus => JoinOne("health");
    case Register(_, _) => JoinOne("register");
    case RotateKey => JoinOne("rotate-key");
    case Create(_, _) => JoinOne("datasets");
    case Update(id, _) => JoinDatasetId(id);
    case FetchDataset(owner, id) => JoinOwnerId(owner, id);
    case FetchSchema(owner, id) => JoinOwnerIdSchema(owner, id);
  }

  /**
   * Distinct slash-free arguments give distinct URLs: the request URL names the
   * endpoint and the arguments exactly.
   */
  lemma UrlDeterminesSegments(c1: Call, c2: Call, k1: string, k2: string)
    requires Plan(c1, k1).Some? && Plan(c2, k2).Some?
    requires forall k :: 0 <= k < |Segments(c1)| ==> SlashFree(Segments(c1)[k])
    requires forall k :: 0 <= k < |Segments(c2)| ==> SlashFree(Segments(c2)[k])
    requires Plan(c1, k1).value.url == Plan(c2, k2).value.url
    ensures Segments(c1) == Segments(c2)
  {
    PathFollowsSegments(c1);
    PathFollowsSegments(c2);
    assert Path(c1) == Plan(c1, k1).value.url[|Base|..];
    assert Path(c2) == Plan(c2, k2).value.url[|Base|..];
    SplitJoin(Segments(c1));
    SplitJoin(Segments(c2));
  }

  /**
   * Arguments are not escaped: a dataset id holding "/schema" turns the dataset
   * request into the schema request for a shorter id.
   */
  lemma UnescapedIdReachesSchema(owner: string, id: string, key: string)
    ensures Plan(FetchDataset(owner, id + "/schema"), key) == Plan(FetchSchema(owner, id), key)
  {
    assert Path(FetchDataset(owner, id + "/schema")) == "/datasets/" + owner + "/" + (id + "/schema");
    assert "/datasets/" + owner + "/" + (id + "/schema") == "/datasets/" + owner + "/" + id + "/schema";
  }

  /**
   * Request shape: a request is made unless the tool needs a key (or is the key
   * status check) and the key is empty; the Authorization header is present
   * exactly on the three authenticated tools and carries "Bearer " + key; a JSON
   * content type goes with every POST and PUT, and GET requests have no headers.
   */
  lemma PlanShape(c: Call, key: string)
    ensures Plan(c, key).Some? ==>
      var r := Plan(c, key).value;
      && (HasHeader(r.headers, "Authorization") <==> NeedsKeyCall(c))
      && (forall i :: 0 <= i < |r.headers| && r.headers[i].0 == "Authorization" ==> r.headers[i].1 == "Bearer " + key)
      && (r.verb == Get <==> r.headers == [])
      && (r.verb != Get ==> JsonContent in r.headers)
      && (r.body.Some? ==> r.verb != Get)
  {
    if Plan(c, key).Some? {
      var r := Plan(c, key).value;
      if NeedsKeyCall(c) {
        assert r.headers[0].0 == "Authorization";
      } else if r.verb != Get {
        assert r.headers == [JsonContent];
      }
    }
  }

  /** The key status probe sends no credentials: its request is the same for every non-empty key. */
  lemma KeyStatusProbeIsAnonymous(k1: string, k2: string)
    requires k1 != "" && k2 != ""
    ensures Plan(KeyStatus, k1) == Plan(KeyStatus, k2) == Plan(CheckHealth, k1)
  {
  }

  /** Without data, `create_dataset` sends only the name and `update_dataset` an empty object. */
  lemma AbsentDataIsOmitted(name: string, id: string, key: string)
    requires key != ""
    ensures Plan(Create(name, None), key).value.body == Some([("name", JString(name))])
    ensures Plan(Update(id, None), key).value.body == Some([])
  {
    assert [("name", JString(name))] + Field("data", None) == [("name", JString(name))];
  }
}
