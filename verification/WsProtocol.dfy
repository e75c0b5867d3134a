/** The messages of a MEXC contract WebSocket and what they mean to the venue. */
module WsProtocol {
  import opened Common

  /** A subscription request: a JSON object with an optional method (its verb); all other content is opaque. */
  datatype Request = Request(verb: Option<string>, param: string)

  /** One outbound text frame. */
  datatype Payload = Login(reqTime: int) | Ping | Message(request: Request)

  predicate IsSub(r: Request) {
    r.verb.Some? && "sub." <= r.verb.value
  }

  predicate IsUnsub(r: Request) {
    r.verb.Some? && "unsub." <= r.verb.value
  }

  /** A "sub.*" request becomes its "unsub.*" form; any other request is left alone. */
  function ToUnsubscribe(r: Request): Request {
    if IsSub(r) then r.(verb := Some("un" + r.verb.value)) else r
  }

  predicate IsSubMessage(p: Payload) {
    p.Message? && IsSub(p.request)
  }

  /** The venue's subscriptions of one connection after it has read one more frame. */
  function Deliver(subs: set<Request>, p: Payload): set<Request> {
    if p.Message? && IsSub(p.request) then subs + {p.request}
    else if p.Message? && IsUnsub(p.request) then
      subs - {p.request.(verb := Some(p.request.verb.value[2..]))}
    else subs
  }

  function DeliverAll(ps: seq<Payload>): set<Request> {
    if ps == [] then {} else Deliver(DeliverAll(ps[..|ps| - 1]), ps[|ps| - 1])
  }

  function Messages(topics: seq<Request>): (ps: seq<Payload>)
    ensures |ps| == |topics|
    ensures forall i :: 0 <= i < |ps| ==> ps[i] == Message(topics[i])
  {
    seq(|topics|, i requires 0 <= i < |topics| => Message(topics[i]))
  }

  lemma DeliverOne(ps: seq<Payload>, p: Payload)
    ensures DeliverAll(ps + [p]) == Deliver(DeliverAll(ps), p)
  {
    assert (ps + [p])[..|ps|] == ps;
  }

  /** The "unsub.*" frame made from a topic takes exactly that topic away. */
  lemma UnsubscribeUndoesSubscribe(subs: set<Request>, t: Request)
    requires IsSub(t)
    ensures !IsSub(ToUnsubscribe(t))
    ensures Deliver(subs, Message(ToUnsubscribe(t))) == subs - {t}
    ensures Deliver(Deliver(subs, Message(t)), Message(ToUnsubscribe(t))) == subs - {t}
  {
    var m := t.verb.value;
    var u := "un" + m;
    assert u[2..] == m;
    assert "unsub." <= u by {
      assert m[..4] == "sub.";
      assert u[..6] == "un" + m[..4];
    }
    assert u[0] == 'u' && "sub."[0] == 's';
    assert ToUnsubscribe(t).(verb := Some(u[2..])) == t;
  }

  /** Subscribing a batch adds exactly the batch. */
  lemma {:induction false} DeliverMessages(ps: seq<Payload>, topics: seq<Request>)
    requires forall t :: t in topics ==> IsSub(t)
    ensures DeliverAll(ps + Messages(topics)) == DeliverAll(ps) + Elements(topics)
  {
    if topics == [] {
      assert ps + Messages(topics) == ps;
    } else {
      var k := |topics| - 1;
      DeliverMessages(ps, topics[..k]);
      assert ps + Messages(topics) == (ps + Messages(topics[..k])) + [Message(topics[k])];
      DeliverOne(ps + Messages(topics[..k]), Message(topics[k]));
      assert topics == topics[..k] + [topics[k]];
      assert Elements(topics) == Elements(topics[..k]) + {topics[k]};
    }
  }
}
