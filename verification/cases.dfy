/**
 * One case document as the dashboard fetches it: the ten projected fields, with `_id` kept
 * as the store's own value so that its conversion to text can be modelled.
 */
module Cases {
  import opened Optional

  type Byte = x: int | 0 <= x < 256

  /** A 12-byte store identifier. */
  type ObjectId = s: seq<Byte> | |s| == 12 witness [0, 0, 0, 0, 0, 0, 0, 0, 0, 0, 0, 0]

  /** A field value as a document holds it. */
  datatype Value = Str(s: string) | Int(n: int) | Oid(id: ObjectId)

  datatype CaseRecord = CaseRecord(
    id: Value,
    caseID: string,
    finishDate: string,
    totalTime: int,
    login: string,
    managerLogin: string,
    category: string,
    notes: string,
    queue: string,
    site: string)

  /** The fields the fetch asks the store for. */
  const Projection: seq<string> :=
    ["_id", "caseID", "finishDate", "totalTime", "login", "managerLogin", "category", "notes", "queue", "site"]

  /** Reading a field of a document by name; `None` for a field the document lacks. */
  function Get(r: CaseRecord, name: string): Option<Value>
  {
    if name == "_id" then Some(r.id)
    else if name == "caseID" then Some(Str(r.caseID))
    else if name == "finishDate" then Some(Str(r.finishDate))
    else if name == "totalTime" then Some(Int(r.totalTime))
    else if name == "login" then Some(Str(r.login))
    else if name == "managerLogin" then Some(Str(r.managerLogin))
    else if name == "category" then Some(Str(r.category))
    else if name == "notes" then Some(Str(r.notes))
    else if name == "queue" then Some(Str(r.queue))
    else if name == "site" then Some(Str(r.site))
    else None
  }

  /** The projection names ten distinct fields, and they are exactly the fields a fetched
      case carries: nothing outside it is read, nothing inside it is missing. */
  lemma ProjectionIsRecord(r: CaseRecord, name: string)
    ensures |Projection| == 10
    ensures forall i, j :: 0 <= i < j < |Projection| ==> Projection[i] != Projection[j]
    ensures Get(r, name).Some? <==> name in Projection
  {
  }

  function HexDigit(n: int): char
    requires 0 <= n < 16
  {
    if n < 10 then (48 + n) as char else (87 + n) as char
  }

  /** Lower-case hexadecimal, two characters per byte. */
  function Hex(bytes: seq<Byte>): (s: string)
    ensures |s| == 2 * |bytes|
  {
    if bytes == [] then [] else [HexDigit(bytes[0] / 16), HexDigit(bytes[0] % 16)] + Hex(bytes[1..])
  }

  function HexDigitValue(c: char): Option<int>
  {
    if '0' <= c <= '9' then Some(c as int - 48)
    else if 'a' <= c <= 'f' then Some(c as int - 87)
    else None
  }

  /** Reads lower-case hexadecimal back into bytes. */
  function ParseHex(s: string): Option<seq<Byte>>
    decreases |s|
  {
    if s == [] then Some([])
    else if |s| == 1 then None
    else
      match (HexDigitValue(s[0]), HexDigitValue(s[1]), ParseHex(s[2..]))
      case (Some(hi), Some(lo), Some(rest)) => Some([16 * hi + lo] + rest)
      case _ => None
  }

  lemma {:induction false} ParseHexRoundTrip(bytes: seq<Byte>)
    ensures ParseHex(Hex(bytes)) == Some(bytes)
  {
    if bytes != [] {
      var s := Hex(bytes);
      ParseHexRoundTrip(bytes[1..]);
      assert s[2..] == Hex(bytes[1..]);
      assert 16 * (bytes[0] / 16) + bytes[0] % 16 == bytes[0];
      assert bytes == [bytes[0]] + bytes[1..];
    }
  }

  /** `str(ObjectId)` loses nothing: different identifiers give different texts. */
  lemma HexInjective(a: ObjectId, b: ObjectId)
    ensures Hex(a) == Hex(b) <==> a == b
    ensures |Hex(a)| == 24
  {
    ParseHexRoundTrip(a);
    ParseHexRoundTrip(b);
  }

  function NatText(n: nat): string
  {
    if n < 10 then [(48 + n) as char] else NatText(n / 10) + [(48 + n % 10) as char]
  }

  /** `str(n)` for a Python integer. */
  function IntText(n: int): string
  {
    if n < 0 then "-" + NatText(-n) else NatText(n)
  }

  /** `astype(str)` applied to one `_id` value: text stays as it is, identifiers become
      their hexadecimal form, integers their decimal form. */
  function Stringify(v: Value): (r: Value)
    ensures r.Str?
    ensures v.Str? ==> r == v
    ensures v.Oid? ==> |r.s| == 24 && ParseHex(r.s) == Some(v.id)
  {
    match v
    case Str(_) => v
    case Int(n) => Str(IntText(n))
    case Oid(id) => ParseHexRoundTrip(id); Str(Hex(id))
  }
}
