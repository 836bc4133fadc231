/**
 * `Right`: one right of an observer, as the rights endpoint lists it.
 * A right is a plain value: an id, a name and a comment.
 */
module Rights {
  import opened Wrappers
  import opened PyStr
  import opened Values
  import opened BaseModel

  datatype Right = Right(id: int, name: Value, comment: Value)

  /**
   * `str(right)`: id, name and comment joined by dashes. Only the
   * scalars have a text here; a name or comment that is a list or a
   * dictionary has none.
   */
  function RightText(r: Right): (t: Option<string>)
    ensures t.Some? <==> Text(r.name).Some? && Text(r.comment).Some?
    ensures t.Some? ==> t.value == Join([IntToStr(r.id), Text(r.name).value, Text(r.comment).value], '-')
  {
    var name :- Text(r.name);
    var comment :- Text(r.comment);
    JoinCons(IntToStr(r.id), [name, comment], '-');
    JoinCons(name, [comment], '-');
    Some(IntToStr(r.id) + "-" + name + "-" + comment)
  }

  /**
   * The text of a right with a non-negative id and a dash-free name and
   * comment splits back into its three parts, and the first reads back
   * as the id.
   */
  lemma RightTextSplits(r: Right)
    requires r.id >= 0 && r.name.Str? && r.comment.Str? && '-' !in r.name.s && '-' !in r.comment.s
    ensures RightText(r).Some?
    ensures Split(RightText(r).value, '-') == [IntToStr(r.id), r.name.s, r.comment.s]
    ensures ParseInt(Split(RightText(r).value, '-')[0]) == Some(r.id)
  {
    var parts := [IntToStr(r.id), r.name.s, r.comment.s];
    assert '-' !in IntToStr(r.id);
    SplitJoin(parts, '-');
    IntRoundTrip(r.id);
  }

  /** The call `retrieve_for_observer` makes: a raw `GET observers/rights/<id>`. */
  function RightsCall(idObserver: Scalar): Call
  {
    Call("get", "observers/rights/" + ToStr(idObserver), None, None, false, None, false, true)
  }

  /** `Right(id_=int(right["id"]), name=right["name"], comment=right["comment"])`, read in that order. */
  function RightOf(v: Value): (r: Result<Right, Exc>)
    ensures r.Ok? ==> IntField(v, "id") == Ok(r.value.id)
    ensures r.Ok? ==> GetItem(v, Str("name")) == Ok(r.value.name) && GetItem(v, Str("comment")) == Ok(r.value.comment)
    ensures v.Dict? ==> (r.Ok? <==> IntField(v, "id").Ok? && HasKey(v.entries, "name") && HasKey(v.entries, "comment"))
  {
    var id :- IntField(v, "id");
    var name :- GetItem(v, Str("name"));
    var comment :- GetItem(v, Str("comment"));
    Ok(Right(id, name, comment))
  }

  /**
   * The rights a response lists: one per entry of `data.rights`, in
   * order, and none when `data` has no `rights`.
   */
  function RightsOf(response: Value): (r: Result<seq<Right>, Exc>)
    ensures response.Dict? && !HasKey(response.entries, "data") ==> r == Err(KeyError)
    ensures response.Dict? && Lookup(response.entries, "data").Some? && Lookup(response.entries, "data").value.Dict? ==>
      var data := Lookup(response.entries, "data").value.entries;
      && (!HasKey(data, "rights") ==> r == Ok([]))
      && (Lookup(data, "rights").Some? && Lookup(data, "rights").value.List? ==>
            r == MapAll(RightOf, Lookup(data, "rights").value.items))
  {
    var data :- GetItem(response, Str("data"));
    var listed :- In("rights", data);
    if !listed then Ok([])
    else
      var rights :- GetItem(data, Str("rights"));
      var items :- Iterate(rights);
      MapAll(RightOf, items)
  }

  /** A right as the endpoint writes it: its id in decimal text. */
  function RightRecord(r: Right): Value
  {
    Dict([("id", Str(IntToStr(r.id))), ("name", r.name), ("comment", r.comment)])
  }

  /** A response listing `rights`, each as the endpoint writes it. */
  function RightsResponse(rights: seq<Right>): Value
  {
    Dict([("data", Dict([("rights", List(Records(rights)))]))])
  }

  function Records(rights: seq<Right>): (vs: seq<Value>)
    ensures |vs| == |rights| && forall i :: 0 <= i < |rights| ==> vs[i] == RightRecord(rights[i])
  {
    if rights == [] then [] else [RightRecord(rights[0])] + Records(rights[1..])
  }

  /** Each written right reads back as itself. */
  lemma RightOfRecord(r: Right)
    ensures RightOf(RightRecord(r)) == Ok(r)
  {
    var e := RightRecord(r).entries;
    assert Lookup(e, "id") == Some(Str(IntToStr(r.id)));
    assert e[1..] == [("name", r.name), ("comment", r.comment)];
    assert e[1..][1..] == [("comment", r.comment)];
    assert Lookup(e, "name") == Some(r.name);
    assert Lookup(e, "comment") == Some(r.comment) by {
      assert |"id"| != |"comment"| && |"name"| != |"comment"|;
      assert Lookup(e[1..][1..], "comment") == Some(r.comment);
      assert Lookup(e[1..], "comment") == Lookup(e[1..][1..], "comment");
    }
    IntRoundTrip(r.id);
  }

  /** The rights of a response that lists them are the rights it lists, in order. */
  lemma RightsRoundTrip(rights: seq<Right>)
    ensures RightsOf(RightsResponse(rights)) == Ok(rights)
  {
    forall i | 0 <= i < |rights|
      ensures RightOf(Records(rights)[i]) == Ok(rights[i])
    {
      RightOfRecord(rights[i]);
    }
    MapAllPointwise(RightOf, Records(rights), rights);
  }

  /**
   * `Right.retrieve_for_observer(id_observer)`: the rights of the
   * observer, from one raw request.
   */
  method RetrieveForObserver(gateway: Gateway, idObserver: Scalar) returns (r: Result<seq<Right>, Exc>)
    modifies gateway
    ensures gateway.calls == old(gateway.calls) + [RightsCall(idObserver)]
    ensures gateway.replies == Rest(old(gateway.replies))
    ensures var reply := Answer(old(gateway.replies));
      && (reply.Err? ==> r == Err(reply.error))
      && (reply.Ok? ==> r == RightsOf(reply.value.0))
  {
    var reply := gateway.Send(RightsCall(idObserver));
    var got :- reply;
    r := RightsOf(got.0);
  }
}
