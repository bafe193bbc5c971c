/**
 * The object-kind enumeration of pkg/rpdac/kind.go: the `ObjectKind` constants, the `kinds`
 * table that names them, and the tag encoding used when objects are written to or read from
 * YAML and JSON documents.
 */
module Kind {
  import opened Wrappers

  /** Go's `type ObjectKind int`, a 64-bit signed integer. */
  newtype ObjectKind = x: int | -0x8000_0000_0000_0000 <= x < 0x8000_0000_0000_0000

  /** The iota constants (kind.go:9-13); the zero value is UnknownKind. */
  const UnknownKind: ObjectKind := 0
  const DashboardKind: ObjectKind := 1
  const FilterKind: ObjectKind := 2

  /** The `kinds` table (kind.go:15-18). */
  const Kinds: map<ObjectKind, string> := map[DashboardKind := "Dashboard", FilterKind := "Filter"]

  /** ObjectKind.String (kind.go:20-22): the table entry, or "" (Go's zero string) for a missing key. */
  function String(k: ObjectKind): (s: string)
    ensures s == "Dashboard" <==> k == DashboardKind
    ensures s == "Filter" <==> k == FilterKind
    ensures s == "" <==> k !in Kinds
  {
    if k in Kinds then Kinds[k] else ""
  }

  /**
   * The value the decoding loop leaves in `*k` when the tag is s and `*k` was k before: the kind
   * the table names s, and k itself when the table names no kind s.
   */
  function KindFromTag(s: string, k: ObjectKind): (r: ObjectKind)
  {
    if s == "Dashboard" then DashboardKind
    else if s == "Filter" then FilterKind
    else k
  }

  /**
   * The loop shared by UnmarshalJSON and UnmarshalYAML (kind.go:35-39, 52-56): every table entry
   * whose name is s is assigned to the receiver. Go visits the map in an unspecified order; the
   * invariant holds whatever element the loop picks next.
   */
  method AssignMatchingKind(k: ObjectKind, s: string) returns (r: ObjectKind)
    ensures r == KindFromTag(s, k)
  {
    r := k;
    var remaining := Kinds.Keys;
    while remaining != {}
      invariant remaining <= Kinds.Keys
      invariant forall kind :: kind in Kinds && kind !in remaining && Kinds[kind] == s ==> r == kind
      invariant r == k || (r in Kinds && r !in remaining && Kinds[r] == s)
      decreases remaining
    {
      var kind :| kind in remaining;
      if Kinds[kind] == s {
        r := kind;
      }
      remaining := remaining - {kind};
    }
    assert Kinds[DashboardKind] == "Dashboard" && Kinds[FilterKind] == "Filter";
    assert r in Kinds ==> r == DashboardKind || r == FilterKind;
  }

  /** A string could not be decoded from the document (the error of json.Unmarshal or of `unmarshal`). */
  datatype DecodeError = DecodeError(message: string)

  /**
   * UnmarshalYAML (kind.go:47-58) and, once json.Unmarshal has produced `decoded`, UnmarshalJSON
   * (kind.go:30-41): on a decoding error the receiver is left as it was and the error is returned;
   * otherwise the tag is looked up and nil is returned.
   */
  method UnmarshalTag(k: ObjectKind, decoded: Result<string, DecodeError>)
    returns (r: ObjectKind, err: Outcome<DecodeError>)
    ensures decoded.Err? ==> r == k && err == Fail(decoded.error)
    ensures decoded.Ok? ==> r == KindFromTag(decoded.value, k) && err == Pass
  {
    if decoded.Err? {
      return k, Fail(decoded.error);
    }
    r := AssignMatchingKind(k, decoded.value);
    err := Pass;
  }

  /** MarshalYAML (kind.go:43-45): the tag is the kind's String() and the error is nil. */
  function MarshalYAML(k: ObjectKind): (r: Result<string, DecodeError>)
    ensures r.Ok? && r.value == String(k)
  {
    Ok(String(k))
  }

  /**
   * MarshalJSON (kind.go:25-27): json.Marshal applied to String(). The JSON encoder of a string
   * is the parameter `encode`.
   */
  function MarshalJSON(k: ObjectKind, encode: string -> string): (r: Result<string, DecodeError>)
    ensures r.Ok? && r.value == encode(String(k))
  {
    Ok(encode(String(k)))
  }

  /** The three constants are distinct and UnknownKind is the zero value. */
  lemma KindsDistinct()
    ensures UnknownKind == 0 as ObjectKind
    ensures UnknownKind != DashboardKind && DashboardKind != FilterKind && UnknownKind != FilterKind
    ensures UnknownKind !in Kinds && DashboardKind in Kinds && FilterKind in Kinds
  {
  }

  /**
   * KindFromTag is exactly the table lookup the loop performs: the tag selects the kind the table
   * names it, and a tag the table does not contain leaves the receiver alone.
   */
  lemma KindFromTagIsTableLookup(s: string, k: ObjectKind)
    ensures (exists kind :: kind in Kinds && Kinds[kind] == s) ==>
              KindFromTag(s, k) in Kinds && Kinds[KindFromTag(s, k)] == s
    ensures (forall kind :: kind in Kinds ==> Kinds[kind] != s) ==> KindFromTag(s, k) == k
  {
    if exists kind :: kind in Kinds && Kinds[kind] == s {
      var kind :| kind in Kinds && Kinds[kind] == s;
      assert kind == DashboardKind || kind == FilterKind;
    }
  }

  /** An unrecognised tag leaves a fresh receiver at UnknownKind (kind_test.go:61-79 for the others). */
  lemma UnrecognisedTagStaysUnknown(s: string)
    requires s != "Dashboard" && s != "Filter"
    ensures KindFromTag(s, UnknownKind) == UnknownKind
  {
  }

  /**
   * Round trip: decoding the tag a kind is written as gives the kind back for the two named kinds;
   * every other kind is written as "", which decodes to nothing and leaves the receiver alone.
   */
  lemma TagRoundTrip(k: ObjectKind, before: ObjectKind)
    ensures k in Kinds ==> KindFromTag(String(k), before) == k
    ensures k !in Kinds ==> KindFromTag(String(k), before) == before
  {
  }

  /**
   * Decoding a written kind restores it exactly when it is one of the named kinds or the
   * receiver's previous value.
   */
  lemma TagRoundTripExactly(k: ObjectKind)
    ensures KindFromTag(String(k), UnknownKind) == k <==> k == UnknownKind || k == DashboardKind || k == FilterKind
  {
    TagRoundTrip(k, UnknownKind);
  }

  /**
   * What Marshal* writes, read back by Unmarshal*, is the kind again (kind_test.go:10-79), given a
   * JSON string decoder that inverts the encoder on the tag written.
   */
  lemma MarshalRoundTrip(k: ObjectKind, before: ObjectKind, encode: string -> string,
                         decode: string -> Result<string, DecodeError>)
    requires k in Kinds
    requires decode(encode(String(k))) == Ok(String(k))
    ensures KindFromTag(MarshalYAML(k).value, before) == k
    ensures decode(MarshalJSON(k, encode).value).Ok?
    ensures KindFromTag(decode(MarshalJSON(k, encode).value).value, before) == k
  {
    TagRoundTrip(k, before);
  }
}
