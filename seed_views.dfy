/**
 * The seed endpoints (Seed_ViewSet in views_seeds_provablyfair.py): which HTTP
 * methods are allowed, the refused create, the partial update of a seed from
 * request data, and the two actions that rotate and reveal the server seed.
 * Request decoding, authentication and the database lookup of the caller's
 * seed are not part of this model: the seed object is passed in.
 */
module SeedViews {
  import opened Wrappers
  import opened Encryption
  import opened Seeds

  const HttpMethodNotAllowed: int := 405

  /** A request value as decoded from the body: a string or a JSON boolean. */
  datatype RequestValue = Text(s: string) | Flag(b: bool)

  /** Why an update request is refused. */
  datatype UpdateError =
    | InvalidRequest   // the serializer's validation raised
    | SaveRejected     // saving raised: the boolean field could not convert the value

  /** Python truthiness of a request value. */
  predicate Truthy(v: RequestValue)
  {
    match v
    case Text(s) => s != ""
    case Flag(b) => b
  }

  /** A value the update writes: not "", not the placeholder "string", and truthy. */
  predicate Writes(v: RequestValue)
  {
    v != Text("") && v != Text("string") && Truthy(v)
  }

  const ClientSeedField: string := "client_seed"
  const VisibleField: string := "visible"
  const FieldsToUpdate: seq<string> := [ClientSeedField, VisibleField]

  /** The raw request value the update loop assigns to `field`, if it assigns one. */
  function Pending(data: map<string, RequestValue>, field: string): Option<RequestValue>
  {
    if field in data && Writes(data[field]) then Some(data[field]) else None
  }

  /** What the character field stores on save: the value converted with str(). */
  function SavedString(v: RequestValue): string
  {
    match v
    case Text(s) => s
    case Flag(b) => if b then "True" else "False"
  }

  /**
   * What the boolean field stores on save: booleans as they are, the strings
   * "t", "True", "1" as true and "f", "False", "0" as false; any other string
   * makes the save raise.
   */
  function SavedBool(v: RequestValue): Option<bool>
  {
    match v
    case Flag(b) => Some(b)
    case Text(s) =>
      if s == "t" || s == "True" || s == "1" then Some(true)
      else if s == "f" || s == "False" || s == "0" then Some(false)
      else None
  }

  /**
   * The client seed and visibility an update leaves on the seed row, or the
   * error it raises (in which case nothing is written). `serializerValid` is
   * the verdict of the seed serializer's validation.
   */
  function UpdatedFields(clientSeed: string, visible: bool, data: map<string, RequestValue>,
                         serializerValid: bool): (r: Result<(string, bool), UpdateError>)
    ensures !serializerValid ==> r == Failure(InvalidRequest)
    // only a visible value the boolean field cannot convert makes the save fail
    ensures r.Failure? && serializerValid ==>
              r.error == SaveRejected && VisibleField in data && data[VisibleField].Text?
    ensures serializerValid && (VisibleField !in data || data[VisibleField].Flag?) ==> r.Success?
    // absent or skipped values leave their field alone
    ensures r.Success? && (ClientSeedField !in data || !Writes(data[ClientSeedField])) ==>
              r.value.0 == clientSeed
    ensures r.Success? && (VisibleField !in data || !Writes(data[VisibleField])) ==>
              r.value.1 == visible
    // a written string client seed is stored as sent
    ensures (r.Success? && ClientSeedField in data && data[ClientSeedField].Text? &&
             Writes(data[ClientSeedField])) ==> r.value.0 == data[ClientSeedField].s
    // any written client seed is stored as str() of the value
    ensures (r.Success? && ClientSeedField in data && Writes(data[ClientSeedField])) ==>
              r.value.0 == SavedString(data[ClientSeedField])
    // exactly a written visible string outside the six the boolean field converts fails the save
    ensures serializerValid ==>
              (r.Failure? <==> VisibleField in data && Writes(data[VisibleField]) &&
                               data[VisibleField].Text? &&
                               data[VisibleField].s !in {"t", "True", "1", "f", "False", "0"})
    // JSON true, "t", "True" and "1" reveal the seed
    ensures (r.Success? && VisibleField in data &&
             data[VisibleField] in {Flag(true), Text("t"), Text("True"), Text("1")}) ==> r.value.1
    // JSON booleans can only reveal; "f", "False" and "0" hide again
    ensures r.Success? && VisibleField in data && data[VisibleField].Flag? ==> (visible ==> r.value.1)
    ensures (serializerValid && VisibleField in data &&
             data[VisibleField] in {Text("f"), Text("False"), Text("0")}) ==> r.Success? && !r.value.1
  {
    if !serializerValid then Failure(InvalidRequest)
    else
      var cs := Pending(data, ClientSeedField);
      var vis := Pending(data, VisibleField);
      if vis.Some? && SavedBool(vis.value).None? then Failure(SaveRejected)
      else Success((if cs.Some? then SavedString(cs.value) else clientSeed,
                    if vis.Some? then SavedBool(vis.value).value else visible))
  }

  /** A revealed seed is hidden again by an update whose visible value is "False". */
  lemma UpdateCanHideRevealedSeed(clientSeed: string)
    ensures UpdatedFields(clientSeed, true, map[VisibleField := Text("False")], true)
            == Success((clientSeed, false))
  {
  }

  function UpperChar(c: char): char
  {
    if 'a' <= c <= 'z' then (c as int - 'a' as int + 'A' as int) as char else c
  }

  function Upper(s: string): string
  {
    seq(|s|, i requires 0 <= i < |s| => UpperChar(s[i]))
  }

  /** get_allowed_methods: the upper-cased names of the allowed methods. */
  function AllowedMethods(): (r: seq<string>)
    ensures r == ["GET", "PUT"]
  {
    var allowedMethods := ["get", "put"];
    assert Upper("get") == "GET";
    assert Upper("put") == "PUT";
    seq(|allowedMethods|, i requires 0 <= i < |allowedMethods| => Upper(allowedMethods[i]))
  }

  /** create: every create request is answered with 405 Method Not Allowed. */
  function Create(data: map<string, RequestValue>): (status: int)
    ensures status == 405
  {
    HttpMethodNotAllowed
  }

  /**
   * update: validate, then assign client_seed and visible from the request
   * when present with a value that Writes accepts, then save, which converts
   * each value for its field. Only those two fields can change: the server
   * seed, the commitment and the nonce are never touched, and a failed save
   * writes nothing.
   */
  method Update(instance: Seed, data: map<string, RequestValue>, serializerValid: bool)
    returns (r: Outcome<UpdateError>)
    modifies instance
    ensures var after := UpdatedFields(old(instance.clientSeed), old(instance.visible), data, serializerValid);
            if after.Success? then
              r == Pass && instance.clientSeed == after.value.0 && instance.visible == after.value.1
            else
              r == Fail(after.error) &&
              instance.clientSeed == old(instance.clientSeed) && instance.visible == old(instance.visible)
    ensures instance.serverSeed == old(instance.serverSeed)
    ensures instance.hashedServerSeedForUser == old(instance.hashedServerSeedForUser)
    ensures instance.nonce == old(instance.nonce)
  {
    if !serializerValid {
      return Fail(InvalidRequest);
    }
    // the attributes set on the in-memory instance, before they are saved
    var clientSeedAttr: Option<RequestValue> := None;
    var visibleAttr: Option<RequestValue> := None;
    for i := 0 to |FieldsToUpdate|
      invariant clientSeedAttr == if i > 0 then Pending(data, ClientSeedField) else None
      invariant visibleAttr == if i > 1 then Pending(data, VisibleField) else None
    {
      var field := FieldsToUpdate[i];
      if field in data {
        var fieldValue := data[field];
        if fieldValue != Text("") && fieldValue != Text("string") {
          if Truthy(fieldValue) {
            if field == ClientSeedField {
              clientSeedAttr := Some(fieldValue);
            } else {
              visibleAttr := Some(fieldValue);
            }
          }
        }
      }
    }
    // instance.save(): a visible value the boolean field cannot convert raises
    var savedVisible := instance.visible;
    if visibleAttr.Some? {
      var converted := SavedBool(visibleAttr.value);
      if converted.None? {
        return Fail(SaveRejected);
      }
      savedVisible := converted.value;
    }
    if clientSeedAttr.Some? {
      instance.clientSeed := SavedString(clientSeedAttr.value);
    }
    instance.visible := savedVisible;
    r := Pass;
  }

  /**
   * change_server_seed: rotate to a freshly generated server seed (no seed is
   * supplied) and answer with the new commitment.
   */
  method ChangeServerSeed(seedUser: Seed, freshToken: string, key: string, p: Primitives)
    returns (hashedServerSeed: string)
    modifies seedUser
    ensures hashedServerSeed == seedUser.hashedServerSeedForUser == p.hash(freshToken)
    ensures seedUser.serverSeed == p.encrypt(freshToken, key)
    ensures seedUser.nonce == 0 && !seedUser.visible
    ensures seedUser.clientSeed == old(seedUser.clientSeed)
    ensures p.DecryptInvertsEncrypt() ==> seedUser.Committed(p, key)
  {
    ghost var _ := seedUser.ModifyServerSeed(None, freshToken, key, p);
    hashedServerSeed := seedUser.hashedServerSeedForUser;
  }

  /**
   * reveal_server_seed: hand out the plaintext server seed; the only change is
   * that the seed becomes visible.
   */
  method RevealServerSeed(seedUser: Seed, key: string, p: Primitives) returns (serverSeed: string)
    modifies seedUser
    ensures serverSeed == old(seedUser.DecryptServerSeed(key, p))
    ensures seedUser.visible
    ensures seedUser.nonce == old(seedUser.nonce) && seedUser.serverSeed == old(seedUser.serverSeed)
    ensures seedUser.hashedServerSeedForUser == old(seedUser.hashedServerSeedForUser)
    ensures seedUser.clientSeed == old(seedUser.clientSeed)
    ensures old(seedUser.Committed(p, key)) ==> p.hash(serverSeed) == seedUser.hashedServerSeedForUser
  {
    serverSeed := seedUser.RevealServerSeed(key, p);
  }
}
