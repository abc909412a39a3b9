/** The in-memory promotions endpoint: a module-level list that `POST` appends to, `GET`
    returns and `DELETE` filters by id. The request body arrives as parsed JSON (or as text
    that is not JSON); the creation time that serves as the new id is a parameter. */
module Promotions {
  import opened Wrappers
  import SeqUtil

  datatype Promotion = Promotion(id: int, title: string, discount: real)

  /** The JSON values the schema looks at; anything else is `JOther`. */
  datatype Json =
    | JString(s: string)
    | JNumber(n: real)
    | JObject(fields: map<string, Json>)
    | JOther

  /** A request body: text that is not JSON makes `req.json()` throw a syntax error. */
  datatype Body = NotJson | Parsed(value: Json)

  datatype Reply =
    | Created(promotion: Promotion)
    | Deleted(id: real)
    | BadRequest(error: string)

  const InvalidData: string := "Datos inválidos"

  function Status(r: Reply): int {
    match r
    case Created(_) => 201
    case Deleted(_) => 200
    case BadRequest(_) => 400
  }

  /** The promotion schema: an object whose `title` is a string and whose `discount` is a
      number; other keys are dropped. */
  function ParsePromo(b: Body): (r: Option<(string, real)>)
    ensures r.Some? <==> b.Parsed? && b.value.JObject?
                         && "title" in b.value.fields && b.value.fields["title"].JString?
                         && "discount" in b.value.fields && b.value.fields["discount"].JNumber?
    ensures r.Some? ==> r.value == (b.value.fields["title"].s, b.value.fields["discount"].n)
  {
    if b.NotJson? || !b.value.JObject? then None
    else
      var f := b.value.fields;
      if "title" in f && f["title"].JString? && "discount" in f && f["discount"].JNumber?
      then Some((f["title"].s, f["discount"].n))
      else None
  }

  /** The delete schema: an object whose `id` is a number. */
  function ParseId(b: Body): (r: Option<real>)
    ensures r.Some? <==> b.Parsed? && b.value.JObject? && "id" in b.value.fields && b.value.fields["id"].JNumber?
    ensures r.Some? ==> r.value == b.value.fields["id"].n
  {
    if b.Parsed? && b.value.JObject? && "id" in b.value.fields && b.value.fields["id"].JNumber?
    then Some(b.value.fields["id"].n)
    else None
  }

  function KeepOthers(id: real): Promotion -> bool {
    (p: Promotion) => p.id as real != id
  }

  /** The list after `DELETE` of `id`. */
  function Without(ps: seq<Promotion>, id: real): seq<Promotion> {
    SeqUtil.Filter(ps, KeepOthers(id))
  }

  /** `POST` on the list: its new value and the reply. */
  function PostOn(ps: seq<Promotion>, b: Body, now: int): (seq<Promotion>, Reply) {
    match ParsePromo(b)
    case Some((title, discount)) => (ps + [Promotion(now, title, discount)], Created(Promotion(now, title, discount)))
    case None => (ps, BadRequest(InvalidData))
  }

  /** `DELETE` on the list: its new value and the reply. */
  function DeleteOn(ps: seq<Promotion>, b: Body): (seq<Promotion>, Reply) {
    match ParseId(b)
    case Some(id) => (Without(ps, id), Deleted(id))
    case None => (ps, BadRequest(InvalidData))
  }

  /** A valid body appends exactly one promotion carrying its fields and the fresh id, with
      status 201; any other body is a 400 and the list stays as it was. */
  lemma PostEffect(ps: seq<Promotion>, b: Body, now: int)
    ensures var (next, reply) := PostOn(ps, b, now);
      && (ParsePromo(b).Some? ==>
            && Status(reply) == 201
            && reply.Created? && reply.promotion.id == now
            && reply.promotion.title == ParsePromo(b).value.0
            && reply.promotion.discount == ParsePromo(b).value.1
            && next == ps + [reply.promotion])
      && (ParsePromo(b).None? ==> Status(reply) == 400 && next == ps)
  {
  }

  /** After `DELETE` no promotion has the id, every other promotion is still there, and the
      list is what remains of the old one in the old order. */
  lemma DeleteEffect(ps: seq<Promotion>, id: real)
    ensures forall p :: p in Without(ps, id) <==> p in ps && p.id as real != id
    ensures forall a, b :: Without(ps + a + b, id) == Without(ps, id) + Without(a, id) + Without(b, id)
  {
    forall a, b
      ensures Without(ps + a + b, id) == Without(ps, id) + Without(a, id) + Without(b, id)
    {
      SeqUtil.FilterAppend(ps + a, b, KeepOthers(id));
      SeqUtil.FilterAppend(ps, a, KeepOthers(id));
    }
  }

  /** Deleting the promotion just created gives back the list it was created on, provided no
      older promotion shares its id. */
  lemma {:induction false} PostThenDelete(ps: seq<Promotion>, b: Body, now: int)
    requires ParsePromo(b).Some?
    requires forall k :: 0 <= k < |ps| ==> ps[k].id != now
    ensures var (next, reply) := PostOn(ps, b, now);
      DeleteOn(next, Parsed(JObject(map["id" := JNumber(reply.promotion.id as real)]))).0 == ps
  {
    var (next, reply) := PostOn(ps, b, now);
    var p := reply.promotion;
    var keep := KeepOthers(now as real);
    assert ParseId(Parsed(JObject(map["id" := JNumber(p.id as real)]))) == Some(now as real);
    SeqUtil.FilterAppend(ps, [p], keep);
    SeqUtil.FilterAll(ps, keep);
    SeqUtil.FilterCons(p, [], keep);
  }

  /** Create, list, delete the created id, list: the lengths read 1 and then 0. */
  lemma CreateListDeleteList()
    ensures var create := Parsed(JObject(map["title" := JString("Oferta"), "discount" := JNumber(10.0)]));
      var (afterPost, reply) := PostOn([], create, 1700000000000);
      var (afterDelete, deleted) := DeleteOn(afterPost, Parsed(JObject(map["id" := JNumber(reply.promotion.id as real)])));
      && Status(reply) == 201 && reply.promotion.title == "Oferta"
      && |afterPost| == 1
      && Status(deleted) == 200
      && |afterDelete| == 0
  {
    var create := Parsed(JObject(map["title" := JString("Oferta"), "discount" := JNumber(10.0)]));
    PostThenDelete([], create, 1700000000000);
  }

  /** The module-level `promotions` list. */
  class PromotionList {
    var promotions: seq<Promotion>

    constructor()
      ensures promotions == []
    {
      promotions := [];
    }

    /** `GET`: the current list. */
    method List() returns (r: seq<Promotion>)
      ensures r == promotions
    {
      r := promotions;
    }

    /** `POST`: `now` is the clock reading used as the id. */
    method Post(b: Body, now: int) returns (reply: Reply)
      modifies this
      ensures (promotions, reply) == PostOn(old(promotions), b, now)
    {
      var parsed := ParsePromo(b);
      if parsed.None? {
        return BadRequest(InvalidData);
      }
      var promotion := Promotion(now, parsed.value.0, parsed.value.1);
      promotions := promotions + [promotion];
      reply := Created(promotion);
    }

    /** `DELETE`: the list is reassigned to its members with a different id. */
    method Delete(b: Body) returns (reply: Reply)
      modifies this
      ensures (promotions, reply) == DeleteOn(old(promotions), b)
    {
      var parsed := ParseId(b);
      if parsed.None? {
        return BadRequest(InvalidData);
      }
      promotions := Without(promotions, parsed.value);
      reply := Deleted(parsed.value);
    }
  }
}
