/** `transformMemberData`, which the club and praise requests both apply to
    member records from the backend: `userId` becomes `id` and `avatarUrl`
    becomes `profileImage`. */
module MemberData {
  import opened Wrappers
  import opened Js
  import Lists

  /** One member: every other property of the record is kept, `id` is `userId`
      when that is defined and the record's own `id` otherwise, and likewise
      `profileImage` falls back to the record's own. Destructuring `null` or
      `undefined` throws. */
  function TransformOne(member: Json): (r: Result<Json, JsError>)
    ensures r.Failure? <==> member == JNull
    ensures r.Success? ==> r.value.JObj?
  {
    if member == JNull then Failure(JsError("Cannot destructure 'member' as it is null.", None))
    else Success(JObj(Rename(OwnProps(member),
                             Pick(Prop(member, "userId"), Prop(member, "id")),
                             Pick(Prop(member, "avatarUrl"), Prop(member, "profileImage")))))
  }

  /** `...rest`: the record's own properties without the two renamed ones. */
  function OwnProps(member: Json): (r: Obj)
    ensures "userId" !in r && "avatarUrl" !in r
  {
    Spread(Some(member)) - {"userId", "avatarUrl"}
  }

  /** `a !== undefined ? a : b`. */
  function Pick(a: Option<Json>, b: Option<Json>): Option<Json> {
    if a.Some? then a else b
  }

  /** `{...rest, id, profileImage}`. */
  function Rename(rest: Obj, id: Option<Json>, profileImage: Option<Json>): (r: Obj)
    ensures Field(r, "id") == id && Field(r, "profileImage") == profileImage
    ensures forall k | k != "id" && k != "profileImage" :: Field(r, k) == Field(rest, k)
  {
    With(With(rest, "id", id), "profileImage", profileImage)
  }

  /** The renaming on a single record, property by property. */
  lemma TransformObject(m: Obj)
    ensures var r := TransformOne(JObj(m));
      && r.Success? && r.value.JObj?
      && Prop(r.value, "id") == (if "userId" in m then Some(m["userId"]) else Field(m, "id"))
      && Prop(r.value, "profileImage") == (if "avatarUrl" in m then Some(m["avatarUrl"]) else Field(m, "profileImage"))
      && "userId" !in r.value.m && "avatarUrl" !in r.value.m
      && (forall k | k in m && k !in {"userId", "avatarUrl", "id", "profileImage"} :: k in r.value.m && r.value.m[k] == m[k])
      && (forall k | k in r.value.m :: k in m || k == "id" || k == "profileImage")
  {
  }

  /** The renaming is idempotent: a transformed record has nothing left to rename. */
  lemma {:induction false} TransformOneIdempotent(member: Json)
    requires TransformOne(member).Success?
    ensures TransformOne(TransformOne(member).value) == TransformOne(member)
  {
    var R := TransformOne(member).value.m;
    assert Field(R, "userId") == Field(OwnProps(member), "userId");
    assert Field(R, "avatarUrl") == Field(OwnProps(member), "avatarUrl");
    TransformClean(R);
  }

  /** A record with neither `userId` nor `avatarUrl` is left as it is. */
  lemma TransformClean(m: Obj)
    requires "userId" !in m && "avatarUrl" !in m
    ensures TransformOne(JObj(m)) == Success(JObj(m))
  {
    SpreadObject(m);
    assert OwnProps(JObj(m)) == m;
    RenameSame(m);
  }

  lemma RenameSame(m: Obj)
    ensures Rename(m, Field(m, "id"), Field(m, "profileImage")) == m
  {
  }

  /** `transformMemberData`: arrays element by element (the first `null`
      element throws), objects as one record, anything else unchanged. */
  function Transform(v: Json): (r: Result<Json, JsError>)
    ensures v.JArr? ==> (r.Success? <==> forall i | 0 <= i < |v.xs| :: v.xs[i] != JNull)
    ensures v.JArr? && r.Success? ==>
      && r.value.JArr? && |r.value.xs| == |v.xs|
      && forall i | 0 <= i < |v.xs| :: Success(r.value.xs[i]) == TransformOne(v.xs[i])
    ensures v.JObj? ==> r == TransformOne(v)
    ensures !v.JArr? && !v.JObj? ==> r == Success(v)
  {
    match v
    case JArr(xs) =>
      (match TransformAll(xs) case Success(ys) => Success(JArr(ys)) case Failure(e) => Failure(e))
    case JObj(_) => TransformOne(v)
    case _ => Success(v)
  }

  function TransformAll(xs: seq<Json>): (r: Result<seq<Json>, JsError>)
    ensures r.Success? <==> forall i | 0 <= i < |xs| :: xs[i] != JNull
    ensures r.Success? ==>
      && |r.value| == |xs|
      && forall i | 0 <= i < |xs| :: Success(r.value[i]) == TransformOne(xs[i])
  {
    Lists.MapResult(xs, TransformOne)
  }

  /** Transforming a transformed list or record changes nothing. */
  lemma {:induction false} TransformIdempotent(v: Json)
    requires Transform(v).Success?
    ensures Transform(Transform(v).value) == Transform(v)
  {
    match v {
      case JArr(xs) =>
        var ys := Transform(v).value.xs;
        forall i | 0 <= i < |ys| ensures ys[i] != JNull && TransformOne(ys[i]) == Success(ys[i]) {
          TransformOneIdempotent(xs[i]);
        }
        var zs := Transform(JArr(ys)).value.xs;
        assert zs == ys;
      case JObj(_) =>
        TransformOneIdempotent(v);
      case _ =>
    }
  }

  /** `x ? transformMemberData(x) : []`, the guard every normaliser uses. */
  function TransformOrEmpty(x: Option<Json>): (r: Result<Json, JsError>)
    ensures !Truthy(x) ==> r == Success(JArr([]))
    ensures Truthy(x) ==> r == Transform(x.value)
  {
    if Truthy(x) then Transform(x.value) else Success(JArr([]))
  }
}
