/**
 * The component's HTTP side: the cached session cookie (`auth`), the upsert
 * envelope and operation choice (`set`), and reading the new id back out of
 * the CRM's answer. The transport itself is an oracle: `Net` maps the
 * position of a request in the component's log, and the request, to the
 * reply the CRM gives.
 */
module Gateway {
  import opened Wrappers
  import opened Json
  import opened Entities

  /** `Amo::TYPE_LEAD` and `Amo::TYPE_CONTACT`. */
  datatype ObjectType = Lead | Contact

  function TypeName(t: ObjectType): string {
    match t
    case Lead => "lead"
    case Contact => "contact"
  }

  /** The collection key `$type . 's'` used in both the request and the response. */
  function Plural(t: ObjectType): (k: string)
    ensures k == (if t == Lead then "leads" else "contacts")
  {
    TypeName(t) + "s"
  }

  datatype Operation = Add | Update

  function OpName(op: Operation): string {
    match op
    case Add => "add"
    case Update => "update"
  }

  /** `set` updates exactly when the payload's `id` is set, and adds otherwise. */
  function ChooseOperation(data: Payload): (op: Operation)
    ensures op == Update <==> "id" in data && data["id"] != Null
    ensures "id" !in data ==> op == Add
  {
    if IsSet(data, "id") then Update else Add
  }

  /** One upsert as it was sent: the object type, the operation and the payload. */
  datatype Sent = Sent(objType: ObjectType, op: Operation, payload: Payload)

  /** `$set['request'][$type . 's'][$operation] = [$data]`. */
  function Envelope(t: ObjectType, op: Operation, data: Payload): (e: Json)
    ensures Unwrap(e) == Some(Sent(t, op, data))
  {
    Object(map["request" := Object(map[Plural(t) := Object(map[OpName(op) := List([Object(data)])])])])
  }

  /** The payload of `{op: [payload]}` when `m` has exactly that shape. */
  function UnwrapOperation(m: map<string, Json>): (r: Option<(Operation, Payload)>)
    ensures r.Some? ==> m == map[OpName(r.value.0) := List([Object(r.value.1)])]
  {
    if m.Keys == {"add"} && SingletonObject(m["add"]) then
      SingletonMap(m, "add");
      Some((Add, m["add"].items[0].fields))
    else if m.Keys == {"update"} && SingletonObject(m["update"]) then
      SingletonMap(m, "update");
      Some((Update, m["update"].items[0].fields))
    else
      None
  }

  /** `v` is a list holding exactly one object. */
  predicate SingletonObject(v: Json) {
    v.List? && |v.items| == 1 && v.items[0].Object?
  }

  lemma SingletonMap(m: map<string, Json>, k: string)
    requires m.Keys == {k} && SingletonObject(m[k])
    ensures m == map[k := List([Object(m[k].items[0].fields)])]
  {
    var v := m[k];
    assert v.items == [v.items[0]];
    assert v == List([Object(v.items[0].fields)]);
  }

  /** The operation and payload of `{type . 's': {op: [payload]}}` for the given type. */
  function UnwrapFor(t: ObjectType, m: map<string, Json>): (r: Option<(Operation, Payload)>)
    ensures r.Some? ==> m == map[Plural(t) := Object(map[OpName(r.value.0) := List([Object(r.value.1)])])]
  {
    var k := Plural(t);
    if m.Keys == {k} && m[k].Object? then
      match UnwrapOperation(m[k].fields)
      case Some(u) =>
        assert m == map[k := m[k]];
        Some(u)
      case None => None
    else
      None
  }

  /**
   * Reads an envelope back: succeeds exactly on the envelopes `set` builds
   * (see `EnvelopeExact`), so an envelope carries nothing but
   * `request.<type>s.<operation>` holding the single payload.
   */
  function Unwrap(e: Json): Option<Sent> {
    if e.Object? && e.fields.Keys == {"request"} && e.fields["request"].Object? then
      var req := e.fields["request"].fields;
      match UnwrapFor(Lead, req)
      case Some(u) => Some(Sent(Lead, u.0, u.1))
      case None =>
        match UnwrapFor(Contact, req)
        case Some(u) => Some(Sent(Contact, u.0, u.1))
        case None => None
    else
      None
  }

  /** The envelope is determined by, and determines, the upsert it carries. */
  lemma EnvelopeExact(e: Json, s: Sent)
    ensures Unwrap(e) == Some(s) <==> e == Envelope(s.objType, s.op, s.payload)
  {

  }

  datatype Request =
    | AuthRequest(login: string, hash: string)
    | SetRequest(objType: ObjectType, envelope: Json, cookie: Option<string>)

  /**
   * The CRM's answer: whether it was OK, the decoded body, and the
   * `session_id` cookie it set, if any.
   */
  datatype Reply = Reply(isOk: bool, data: Json, sessionId: Option<string>)

  datatype Exchange = Exchange(request: Request, reply: Reply)

  /** The network: the reply to the request sent at a given position of the log. */
  type Net = (nat, Request) -> Reply

  /** Every exchange from position `from` on holds the reply `net` gave at its position. */
  predicate Answered(log: seq<Exchange>, net: Net, from: nat) {
    forall i :: from <= i < |log| ==> log[i].reply == net(i, log[i].request)
  }

  /** The component instance: its cached session cookie and every exchange so far. */
  datatype Amo = Amo(authCookie: Option<string>, log: seq<Exchange>)

  /** Sends `req` as the next request of the log. */
  function Send(a: Amo, net: Net, req: Request): (r: Amo)
    ensures r.authCookie == a.authCookie
    ensures r.log == a.log + [Exchange(req, net(|a.log|, req))]
  {
    a.(log := a.log + [Exchange(req, net(|a.log|, req))])
  }

  /**
   * `auth()`: logs in only while no cookie is cached, and caches the
   * `session_id` cookie only from an OK reply.
   */
  function Auth(cfg: Config, a: Amo, net: Net): (r: Amo)
    ensures a.log <= r.log
    ensures Answered(r.log, net, |a.log|)
    ensures a.authCookie.Some? ==> r == a
    ensures a.authCookie.None? ==>
      && |r.log| == |a.log| + 1
      && r.log[|a.log|].request == AuthRequest(cfg.login, cfg.hash)
      && (r.authCookie.Some? <==> r.log[|a.log|].reply.isOk && r.log[|a.log|].reply.sessionId.Some?)
      && (r.authCookie.Some? ==> r.authCookie == r.log[|a.log|].reply.sessionId)
  {
    if a.authCookie.None? then
      var b := Send(a, net, AuthRequest(cfg.login, cfg.hash));
      var reply := b.log[|a.log|].reply;
      if reply.isOk then b.(authCookie := reply.sessionId) else b
    else
      a
  }

  /** Once a cookie is cached, `auth()` neither sends anything nor changes it. */
  lemma AuthIdempotent(cfg: Config, a: Amo, net: Net)
    requires Auth(cfg, a, net).authCookie.Some?
    ensures Auth(cfg, Auth(cfg, a, net), net) == Auth(cfg, a, net)
    ensures a.authCookie.Some? ==> Auth(cfg, a, net).authCookie == a.authCookie
  {

  }

  /**
   * `$response->data['response'][$type . 's'][$operation][0]['id']` on an OK
   * reply, and false otherwise.
   */
  function UpsertResult(t: ObjectType, op: Operation, reply: Reply): (id: Json)
    ensures !reply.isOk ==> id == Bool(false)
    ensures reply.isOk && id != Null ==>
      var ops := At(At(reply.data, "response"), Plural(t));
      ops.Object? && OpName(op) in ops.fields
    ensures reply.isOk ==>
      var items := At(At(At(reply.data, "response"), Plural(t)), OpName(op));
      items.List? && |items.items| > 0 && items.items[0].Object? && "id" in items.items[0].fields ==>
        id == items.items[0].fields["id"]
  {
    if reply.isOk then
      At(First(At(At(At(reply.data, "response"), Plural(t)), OpName(op))), "id")
    else
      Bool(false)
  }

  /** The answer the CRM gives to an accepted upsert: the new id echoed at position 0. */
  function EchoResponse(t: ObjectType, op: Operation, id: Json): Json {
    Object(map["response" := Object(map[Plural(t) := Object(map[OpName(op) := List([Object(map["id" := id])])])])])
  }

  /**
   * The id is read from the path of the operation that was sent: an echo under
   * that path yields its id, and an echo under the other operation or the
   * other type yields null.
   */
  lemma EchoRoundTrip(t: ObjectType, op: Operation, t': ObjectType, op': Operation, id: Json, s: Option<string>)
    ensures UpsertResult(t, op, Reply(true, EchoResponse(t', op', id), s)) == (if t == t' && op == op' then id else Null)
    ensures UpsertResult(t, op, Reply(false, EchoResponse(t', op', id), s)) == Bool(false)
  {

  }

  /**
   * The id is read from `response.<type>s.<operation>[0].id` whatever else the
   * answer carries: other keys at every level, and further items after the first.
   */
  lemma EchoAmongOtherKeys(t: ObjectType, op: Operation, id: Json, top: map<string, Json>, types: map<string, Json>,
                           ops: map<string, Json>, item: map<string, Json>, rest: seq<Json>, s: Option<string>)
    ensures
      var items := List([Object(item["id" := id])] + rest);
      var data := Object(top["response" := Object(types[Plural(t) := Object(ops[OpName(op) := items])])]);
      UpsertResult(t, op, Reply(true, data, s)) == id
  {
  }

  /** The result of one `set` call: the component afterwards and the value returned. */
  datatype Upserted = Upserted(amo: Amo, id: Json)

  /** The upsert requests of a log, in order (authentication requests dropped). */
  function Upserts(log: seq<Exchange>): seq<Exchange> {
    if log == [] then []
    else
      var rest := Upserts(log[..|log| - 1]);
      if log[|log| - 1].request.SetRequest? then rest + [log[|log| - 1]] else rest
  }

  /** Every upsert of a log is an upsert request at some position of it. */
  lemma {:induction false} UpsertsIn(log: seq<Exchange>, x: Exchange) returns (i: nat)
    requires x in Upserts(log)
    ensures i < |log| && log[i] == x && x.request.SetRequest?
    decreases |log|
  {
    var last := log[|log| - 1];
    var rest := log[..|log| - 1];
    if last.request.SetRequest? && x == last {
      i := |log| - 1;
    } else {
      assert x in Upserts(rest);
      i := UpsertsIn(rest, x);
    }
  }

  /** `Answered` from `from` to `mid`, then from `mid`, on an extension. */
  lemma AnsweredChain(l1: seq<Exchange>, l2: seq<Exchange>, net: Net, from: nat)
    requires l1 <= l2 && Answered(l1, net, from) && Answered(l2, net, |l1|)
    ensures Answered(l2, net, from)
  {

  }

  lemma {:induction false} UpsertsAppend(s: seq<Exchange>, t: seq<Exchange>)
    ensures Upserts(s + t) == Upserts(s) + Upserts(t)
    decreases |t|
  {
    if t == [] {
      assert s + t == s;
    } else {
      var t' := t[..|t| - 1];
      var x := t[|t| - 1];
      assert t == t' + [x];
      assert s + t == (s + t') + [x];
      assert (s + t)[..|s + t| - 1] == s + t';
      UpsertsAppend(s, t');
    }
  }

  /** Upserts of the part of a log added between three snapshots `a <= b <= c`. */
  lemma UpsertsSplit(a: seq<Exchange>, b: seq<Exchange>, c: seq<Exchange>)
    requires a <= b <= c
    ensures Upserts(c[|a|..]) == Upserts(b[|a|..]) + Upserts(c[|b|..])
  {
    assert c[|a|..] == b[|a|..] + c[|b|..];
    UpsertsAppend(b[|a|..], c[|b|..]);
  }

  /** What an upsert exchange carried (a default for one that does not decode). */
  function Issued(x: Exchange): Sent {
    if x.request.SetRequest? then
      match Unwrap(x.request.envelope)
      case Some(s) => s
      case None => Sent(Lead, Add, map[])
    else
      Sent(Lead, Add, map[])
  }

  /** An upsert exchange whose envelope decodes to what `Issued` reports, under its own type. */
  predicate Sound(x: Exchange) {
    x.request.SetRequest? && Unwrap(x.request.envelope) == Some(Issued(x)) && x.request.objType == Issued(x).objType
  }

  /** The value `set` returned for an upsert exchange. */
  function Returned(x: Exchange): Json {
    UpsertResult(Issued(x).objType, Issued(x).op, x.reply)
  }

  /**
   * After at most one login request, a log that ends in an upsert holds
   * exactly that upsert.
   */
  lemma LastUpsert(before: seq<Exchange>, mid: seq<Exchange>, x: Exchange)
    requires before <= mid && |mid| <= |before| + 1
    requires |mid| > |before| ==> mid[|before|].request.AuthRequest?
    requires x.request.SetRequest?
    ensures Upserts((mid + [x])[|before|..]) == [x]
  {
    assert (mid + [x])[|before|..] == mid[|before|..] + [x];
    UpsertsAppend(mid[|before|..], [x]);
    assert Upserts([x]) == [x] by {
      assert [x][..0] == [];
    }
    assert Upserts(mid[|before|..]) == [] by {
      if |mid| > |before| {
        assert mid[|before|..] == [mid[|before|]];
        assert mid[|before|..][..0] == [];
      }
    }
  }

  /**
   * `set($type, $data)`: authenticates, then sends exactly one upsert of
   * `data` under the operation `ChooseOperation` picks, carrying the cached
   * cookie, and returns the id the CRM echoed (false on a failed reply).
   */
  function Set(cfg: Config, a: Amo, net: Net, t: ObjectType, data: Payload): (r: Upserted)
    ensures a.log <= r.amo.log
    ensures |a.log| < |r.amo.log| <= |a.log| + 2
    ensures Answered(r.amo.log, net, |a.log|)
    ensures var x := r.amo.log[|r.amo.log| - 1];
      && Upserts(r.amo.log[|a.log|..]) == [x]
      && x.request == SetRequest(t, Envelope(t, ChooseOperation(data), data), r.amo.authCookie)
      && Issued(x) == Sent(t, ChooseOperation(data), data)
      && Sound(x)
      && r.id == Returned(x)
    ensures a.authCookie.Some? ==> r.amo.authCookie == a.authCookie && |r.amo.log| == |a.log| + 1
    ensures r.amo.authCookie == Auth(cfg, a, net).authCookie
  {
    var op := ChooseOperation(data);
    var b := Auth(cfg, a, net);
    var req := SetRequest(t, Envelope(t, op, data), b.authCookie);
    var c := Send(b, net, req);
    AnsweredChain(b.log, c.log, net, |a.log|);
    var x := c.log[|c.log| - 1];
    LastUpsert(a.log, b.log, x);
    assert c.log == b.log + [x];
    assert Issued(x) == Sent(t, op, data);
    Upserted(c, UpsertResult(t, op, x.reply))
  }

  /** Two consecutive `set` calls send exactly their two upserts, in order. */
  lemma SetThenSet(cfg: Config, a: Amo, net: Net, first: Upserted, second: Upserted,
                   t0: ObjectType, d0: Payload, t1: ObjectType, d1: Payload)
    requires first == Set(cfg, a, net, t0, d0)
    requires second == Set(cfg, first.amo, net, t1, d1)
    ensures a.log <= second.amo.log
    ensures var u := Upserts(second.amo.log[|a.log|..]);
      && |u| == 2
      && Issued(u[0]) == Sent(t0, ChooseOperation(d0), d0)
      && Issued(u[1]) == Sent(t1, ChooseOperation(d1), d1)
      && Sound(u[0]) && Sound(u[1])
      && first.id == Returned(u[0])
      && second.id == Returned(u[1])
    ensures a.authCookie.Some? ==> second.amo.authCookie == a.authCookie && |second.amo.log| == |a.log| + 2
    ensures Answered(second.amo.log, net, |a.log|)
  {
    UpsertsSplit(a.log, first.amo.log, second.amo.log);
    AnsweredChain(first.amo.log, second.amo.log, net, |a.log|);
  }
}
