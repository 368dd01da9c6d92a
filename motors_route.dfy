/**
 * The `/api/motors` route handlers over the motor table. POST runs an ordered
 * ladder of early returns (missing fields 400, non-string fields 400, value
 * out of range 400, name already stored 409) and otherwise creates the record
 * (201); any failure of the request body or of the store becomes 500. GET
 * lists every motor ordered by name ascending.
 *
 * The table is a `MotorStore` object holding a sequence of records. The
 * sanitising helpers the route imports and the engine's string-to-number
 * reading are not visible and enter as parameters (`Externals`); the points
 * where the body or the store can fail enter as a `Fault`.
 */
module MotorsRoute {
  import opened Optional
  import opened JsValues
  import opened MotorPage
  import Text

  /** The three fields POST reads from the parsed JSON body (absent ones are `Undefined`). */
  datatype Body = Body(name: JsValue, motorType: JsValue, nilai: JsValue)

  /** Code the route calls but that is not part of this model. */
  datatype Externals = Externals(
    sanitizeString: string -> string,
    sanitizeNumber: real -> real,
    parseNumber: string -> Numeric)

  /** Where a request can fail outside the route's own checks. */
  datatype Fault = NoFault | BodyUnreadable | LookupFails | CreateFails

  datatype Payload = ErrorMessage(error: string) | Record(motor: Motor) | Records(motors: seq<Motor>)

  datatype Response = Response(status: int, payload: Payload)

  const MissingFields := "Missing required fields: name, type, nilai"
  const NotStrings := "Name and type must be strings"
  const NilaiOutOfRange := "Nilai must be a positive number less than 1,000,000,000"
  const AlreadyExists := "Motor with this name already exists"
  const CreateFailed := "Failed to create motor"
  const FetchFailed := "Failed to fetch motors"

  /** The largest value the route accepts (the page's form has its own copy of this bound). */
  const NilaiLimit: real := 1000000000.0

  /** The outcome of the checks on the body that need no store. */
  datatype Checked = Accepted(name: string, motorType: string, nilai: real) | Rejected(message: string)

  /** `isNaN(n) || n <= 0 || n > 1000000000`. */
  predicate OutOfRange(n: Numeric)
  {
    n == NaN || AtMost(n, 0.0) || Above(n, NilaiLimit)
  }

  /**
   * The guards on the request body, in the source's order: every field must
   * be truthy, name and type must be strings, and `Number(nilai)` must lie in
   * (0, 1,000,000,000].
   */
  function CheckBody(body: Body, parse: string -> Numeric): (r: Checked)
    ensures r == Rejected(MissingFields) <==>
              !Truthy(body.name) || !Truthy(body.motorType) || !Truthy(body.nilai)
    ensures r == Rejected(NotStrings) <==>
              Truthy(body.name) && Truthy(body.motorType) && Truthy(body.nilai)
              && (!body.name.Str? || !body.motorType.Str?)
    ensures r == Rejected(NilaiOutOfRange) <==>
              body.name.Str? && body.name.s != [] && body.motorType.Str? && body.motorType.s != []
              && Truthy(body.nilai) && OutOfRange(ToNumber(body.nilai, parse))
    ensures r.Accepted? <==>
              body.name.Str? && body.name.s != [] && body.motorType.Str? && body.motorType.s != []
              && Truthy(body.nilai) && ToNumber(body.nilai, parse).Finite?
              && 0.0 < ToNumber(body.nilai, parse).x <= NilaiLimit
    ensures r.Accepted? ==>
              r.name == body.name.s && r.motorType == body.motorType.s
              && ToNumber(body.nilai, parse) == Finite(r.nilai)
    ensures body.nilai == Num(0.0) || body.nilai == Str("") ==> r == Rejected(MissingFields)
  {
    if !Truthy(body.name) || !Truthy(body.motorType) || !Truthy(body.nilai) then
      Rejected(MissingFields)
    else if !body.name.Str? || !body.motorType.Str? then
      Rejected(NotStrings)
    else
      var nilai := ToNumber(body.nilai, parse);
      if OutOfRange(nilai) then Rejected(NilaiOutOfRange)
      else Accepted(body.name.s, body.motorType.s, nilai.x)
  }

  /** `findFirst({ where: { name } })`: the first stored motor with exactly this name. */
  function FindFirst(motors: seq<Motor>, name: string): (r: Option<Motor>)
    ensures r.None? <==> forall i :: 0 <= i < |motors| ==> motors[i].name != name
    ensures r.Some? ==> exists i :: 0 <= i < |motors| && motors[i] == r.value
                          && r.value.name == name
                          && forall j :: 0 <= j < i ==> motors[j].name != name
  {
    if motors == [] then None
    else if motors[0].name == name then Some(motors[0])
    else
      var r := FindFirst(motors[1..], name);
      assert forall i :: 0 < i < |motors| ==> motors[i] == motors[1..][i - 1];
      r
  }

  /** No two stored motors share a name. */
  predicate NamesDistinct(motors: seq<Motor>)
  {
    forall i, j :: 0 <= i < j < |motors| ==> motors[i].name != motors[j].name
  }

  /** No two stored motors share an id. */
  predicate IdsDistinct(motors: seq<Motor>)
  {
    forall i, j :: 0 <= i < j < |motors| ==> motors[i].id != motors[j].id
  }

  /** Lexicographic order on names by character code. */
  predicate NameLe(a: string, b: string)
  {
    if a == [] then true
    else if b == [] then false
    else if a[0] != b[0] then a[0] < b[0]
    else NameLe(a[1..], b[1..])
  }

  lemma {:induction false} NameLeTotal(a: string, b: string)
    ensures NameLe(a, b) || NameLe(b, a)
  {
    if a != [] && b != [] && a[0] == b[0] {
      NameLeTotal(a[1..], b[1..]);
    }
  }

  /** Each record's name is at most the next one's. */
  predicate SortedByName(motors: seq<Motor>)
  {
    forall i :: 0 < i < |motors| ==> NameLe(motors[i - 1].name, motors[i].name)
  }

  /** `m` placed before the first record of `motors` whose name it does not exceed. */
  function InsertByName(m: Motor, motors: seq<Motor>): (r: seq<Motor>)
    requires SortedByName(motors)
    ensures SortedByName(r)
    ensures multiset(r) == multiset(motors) + multiset{m}
    ensures r[0] == m || (motors != [] && r[0] == motors[0])
  {
    if motors == [] || NameLe(m.name, motors[0].name) then [m] + motors
    else
      NameLeTotal(m.name, motors[0].name);
      var rest := InsertByName(m, motors[1..]);
      assert motors == [motors[0]] + motors[1..];
      [motors[0]] + rest
  }

  /** The records ordered by name ascending (`orderBy: { name: 'asc' }`). */
  function SortByName(motors: seq<Motor>): (r: seq<Motor>)
    ensures SortedByName(r)
    ensures multiset(r) == multiset(motors)
  {
    if motors == [] then []
    else
      assert motors == [motors[0]] + motors[1..];
      InsertByName(motors[0], SortByName(motors[1..]))
  }

  /**
   * The server's duplicate check is exact while the form's ignores case: with
   * "Beat" stored and sanitising left as identity, the form refuses "beat" but
   * the route's guards accept it and the lookup finds nothing.
   * `CreatesCaseVariant` below shows `Post` then creating it.
   */
  lemma ServerNameMatchIsExact(parse: string -> Numeric)
    ensures var stored := [Motor(1, "Beat", "Matic", 18000000.0)];
            && IsDuplicate("beat", stored, None)
            && CheckBody(Body(Str("beat"), Str("Matic"), Num(18000000.0)), parse)
               == Accepted("beat", "Matic", 18000000.0)
            && FindFirst(stored, "beat").None?
  {
    var stored := [Motor(1, "Beat", "Matic", 18000000.0)];
    var body := Body(Str("beat"), Str("Matic"), Num(18000000.0));
    assert ToNumber(body.nilai, parse) == Finite(18000000.0);
    assert !OutOfRange(Finite(18000000.0));
    assert CheckBody(body, parse) == Accepted("beat", "Matic", 18000000.0);
    assert "Beat" != "beat" by { assert "Beat"[0] != "beat"[0]; }
    assert Text.ToLower("Beat") == "beat";
    assert Text.Trim("beat") == "beat" by {
      assert !Text.IsSpace('b') && !Text.IsSpace('t');
    }
    assert Clashes(stored[0], Text.ToLower(Text.Trim("beat")), None);
  }

  /** The motor table. */
  class MotorStore {
    var motors: seq<Motor>
    /** The id the next created record receives (the table's auto-increment). */
    var nextId: int

    ghost predicate Valid()
      reads this
    {
      IdsDistinct(motors) && forall i :: 0 <= i < |motors| ==> motors[i].id < nextId
    }

    constructor ()
      ensures Valid() && motors == []
    {
      motors := [];
      nextId := 1;
    }

    /** `GET`: every stored motor, ordered by name ascending; 500 if the store fails. */
    method Get(lookupFails: bool) returns (resp: Response)
      requires Valid()
      ensures lookupFails ==> resp == Response(500, ErrorMessage(FetchFailed))
      ensures !lookupFails ==> resp.status == 200 && resp.payload.Records?
      ensures !lookupFails ==> SortedByName(resp.payload.motors)
      ensures !lookupFails ==> multiset(resp.payload.motors) == multiset(motors)
    {
      if lookupFails {
        return Response(500, ErrorMessage(FetchFailed));
      }
      resp := Response(200, Records(SortByName(motors)));
    }

    /** `POST`: validate the body, refuse a stored name, otherwise create the record. */
    method Post(body: Body, ext: Externals, fault: Fault) returns (resp: Response)
      requires Valid()
      modifies this
      ensures Valid()
      // the status each request receives
      ensures fault == BodyUnreadable ==> resp == Response(500, ErrorMessage(CreateFailed))
      ensures fault != BodyUnreadable && CheckBody(body, ext.parseNumber).Rejected? ==>
                resp == Response(400, ErrorMessage(CheckBody(body, ext.parseNumber).message))
      ensures fault != BodyUnreadable && CheckBody(body, ext.parseNumber).Accepted? ==>
                var key := ext.sanitizeString(CheckBody(body, ext.parseNumber).name);
                && (fault == LookupFails ==> resp == Response(500, ErrorMessage(CreateFailed)))
                && (fault != LookupFails && FindFirst(old(motors), key).Some? ==>
                      resp == Response(409, ErrorMessage(AlreadyExists)))
                && (fault != LookupFails && FindFirst(old(motors), key).None? ==>
                      resp == if fault == CreateFails then Response(500, ErrorMessage(CreateFailed))
                              else Response(201, resp.payload))
      // the store changes only on success, by exactly the one new record
      ensures resp.status != 201 ==> motors == old(motors)
      ensures resp.status == 201 ==>
                var c := CheckBody(body, ext.parseNumber);
                && c.Accepted?
                && resp.payload.Record?
                && motors == old(motors) + [resp.payload.motor]
                && resp.payload.motor.name == ext.sanitizeString(c.name)
                && resp.payload.motor.motorType == ext.sanitizeString(c.motorType)
                && resp.payload.motor.nilai == ext.sanitizeNumber(c.nilai)
                && (forall i :: 0 <= i < |old(motors)| ==> old(motors)[i].name != resp.payload.motor.name)
                && (forall i :: 0 <= i < |old(motors)| ==> old(motors)[i].id != resp.payload.motor.id)
      ensures NamesDistinct(old(motors)) ==> NamesDistinct(motors)
    {
      if fault == BodyUnreadable {
        return Response(500, ErrorMessage(CreateFailed));
      }
      var checked := CheckBody(body, ext.parseNumber);
      if checked.Rejected? {
        return Response(400, ErrorMessage(checked.message));
      }
      var key := ext.sanitizeString(checked.name);
      if fault == LookupFails {
        return Response(500, ErrorMessage(CreateFailed));
      }
      var existing := FindFirst(motors, key);
      if existing.Some? {
        return Response(409, ErrorMessage(AlreadyExists));
      }
      if fault == CreateFails {
        return Response(500, ErrorMessage(CreateFailed));
      }
      var motor := Motor(nextId, key, ext.sanitizeString(checked.motorType), ext.sanitizeNumber(checked.nilai));
      motors := motors + [motor];
      nextId := nextId + 1;
      resp := Response(201, Record(motor));
    }
  }

  /**
   * With sanitising left as identity, posting "Beat" to an empty table and
   * then "beat" creates both: the route tells names apart by case.
   */
  method CreatesCaseVariant() returns (store: MotorStore, first: Response, second: Response)
    ensures first.status == 201 && second.status == 201
    ensures first.payload.Record? && second.payload.Record?
    ensures first.payload.motor.name == "Beat" && second.payload.motor.name == "beat"
    ensures store.motors == [first.payload.motor, second.payload.motor]
  {
    store := new MotorStore();
    var ext := Externals(s => s, x => x, s => NaN);
    first := store.Post(Body(Str("Beat"), Str("Matic"), Num(18000000.0)), ext, NoFault);
    assert store.motors == [first.payload.motor];
    assert "Beat" != "beat" by { assert "Beat"[0] != "beat"[0]; }
    second := store.Post(Body(Str("beat"), Str("Matic"), Num(18000000.0)), ext, NoFault);
  }
}
