/**
 * The content-field codec of pkg/rpdac/dashboard.go. A content field is a `$`-separated path;
 * for `statistics$defects$<type>$<sub type>` fields the fourth segment names a defect sub type,
 * which ReportPortal stores as a project-specific locator and the local files store as a short
 * name. Decoding and encoding rewrite that segment through a lookup map.
 */
module Fields {
  import opened Wrappers
  import Strings

  const Separator: char := '$'

  /** The `$`-segments of a field (strings.Split(f, "$")). */
  function Segments(f: string): (p: seq<string>)
    ensures |p| >= 1
  {
    Strings.Split(f, Separator)
  }

  /** The test of dashboard.go:58: the first two segments are `statistics` and `defects`. */
  predicate IsDefectField(p: seq<string>) {
    |p| >= 2 && p[0] == "statistics" && p[1] == "defects"
  }

  /**
   * The inputs dashboard.go:58-59 can index without a run-time panic: `p[1]` is read when the
   * first segment is `statistics`, and `p[3]` when the first two are `statistics`, `defects`.
   */
  predicate WellFormed(f: string) {
    var p := Segments(f);
    (p[0] == "statistics" ==> |p| >= 2) && (IsDefectField(p) ==> |p| >= 4)
  }

  /** The error of dashboard.go:61: no map entry for the sub type of this field. */
  datatype FieldError = MissingSubType(field: string)

  /** The loop body of DecodeFieldsSubTypes (dashboard.go:57-68) on one field. */
  function DecodeField(f: string, m: map<string, string>): (r: Result<string, FieldError>)
    requires WellFormed(f)
    ensures !IsDefectField(Segments(f)) ==> r == Ok(f)
    ensures IsDefectField(Segments(f)) ==> (r.Ok? <==> Segments(f)[3] in m)
    ensures r.Err? ==> r.error == MissingSubType(f)
    ensures r.Ok? && IsDefectField(Segments(f)) ==>
              r.value == Strings.Join(Segments(f)[3 := m[Segments(f)[3]]], Separator)
    ensures r.Ok? && IsDefectField(Segments(f)) && Separator !in m[Segments(f)[3]] ==>
              Segments(r.value) == Segments(f)[3 := m[Segments(f)[3]]]
  {
    var p := Segments(f);
    if p[0] == "statistics" && p[1] == "defects" then
      if p[3] in m then
        var q := p[3 := m[p[3]]];
        if Separator in m[p[3]] then Ok(Strings.Join(q, Separator))
        else
          Strings.SplitJoin(q, Separator);
          Ok(Strings.Join(q, Separator))
      else Err(MissingSubType(f))
    else Ok(f)
  }

  predicate AllWellFormed(fields: seq<string>) {
    forall i :: 0 <= i < |fields| ==> WellFormed(fields[i])
  }

  /**
   * What DecodeFieldsSubTypes returns: every field decoded in place, or the error of the first
   * field that cannot be decoded.
   */
  function DecodeFields(fields: seq<string>, m: map<string, string>): (r: Result<seq<string>, FieldError>)
    requires AllWellFormed(fields)
    ensures r.Ok? <==> forall i :: 0 <= i < |fields| ==> DecodeField(fields[i], m).Ok?
    ensures r.Ok? ==> |r.value| == |fields|
    ensures r.Ok? ==> forall i :: 0 <= i < |fields| ==> r.value[i] == DecodeField(fields[i], m).value
    ensures r.Err? ==> exists i :: 0 <= i < |fields| && DecodeField(fields[i], m).Err? &&
                                   r == Err(DecodeField(fields[i], m).error)
  {
    if |fields| == 0 then Ok([])
    else
      var head := DecodeField(fields[0], m);
      if head.Err? then Err(head.error)
      else
        var rest := DecodeFields(fields[1..], m);
        assert forall i :: 0 < i < |fields| ==> fields[1..][i - 1] == fields[i];
        if rest.Err? then rest
        else Ok([head.value] + rest.value)
  }

  /** The error DecodeFields reports is that of the first field that fails. */
  lemma {:induction false} DecodeFieldsFirstError(fields: seq<string>, m: map<string, string>, j: nat)
    requires AllWellFormed(fields)
    requires j < |fields| && DecodeField(fields[j], m).Err?
    requires forall k :: 0 <= k < j ==> DecodeField(fields[k], m).Ok?
    ensures DecodeFields(fields, m) == Err(DecodeField(fields[j], m).error)
  {
    if j > 0 {
      assert forall k :: 0 <= k < j - 1 ==> fields[1..][k] == fields[k + 1];
      DecodeFieldsFirstError(fields[1..], m, j - 1);
    }
  }

  /**
   * DecodeFieldsSubTypes (dashboard.go:53-71): fills a result array of the same length field by
   * field and stops at the first field whose sub type the map lacks.
   */
  method DecodeFieldsSubTypes(fields: seq<string>, decodeMap: map<string, string>)
    returns (r: Result<seq<string>, FieldError>)
    requires AllWellFormed(fields)
    ensures r == DecodeFields(fields, decodeMap)
  {
    var result := new string[|fields|];
    var j := 0;
    while j < |fields|
      invariant 0 <= j <= |fields|
      invariant forall k :: 0 <= k < j ==> DecodeField(fields[k], decodeMap).Ok? &&
                                           result[k] == DecodeField(fields[k], decodeMap).value
    {
      var f := fields[j];
      var p := Strings.Split(f, Separator);
      if p[0] == "statistics" && p[1] == "defects" {
        if p[3] !in decodeMap {
          DecodeFieldsFirstError(fields, decodeMap, j);
          return Err(MissingSubType(f));
        }
        var s := decodeMap[p[3]];
        p := p[3 := s];
        result[j] := Strings.Join(p, Separator);
      } else {
        result[j] := f;
      }
      j := j + 1;
    }
    assert DecodeFields(fields, decodeMap).Ok?;
    assert result[..] == DecodeFields(fields, decodeMap).value;
    r := Ok(result[..]);
  }

  /**
   * EncodeFieldsSubTypes (dashboard.go:74-79): decoding with the encode map, which is the inverse
   * of the decode map.
   */
  method EncodeFieldsSubTypes(fields: seq<string>, encodeMap: map<string, string>)
    returns (r: Result<seq<string>, FieldError>)
    requires AllWellFormed(fields)
    ensures r == DecodeFields(fields, encodeMap)
  {
    r := DecodeFieldsSubTypes(fields, encodeMap);
  }

  /** `back` undoes `there`: every value of `there` is a `$`-free key of `back` leading home. */
  predicate Undoes(back: map<string, string>, there: map<string, string>) {
    forall s :: s in there ==> Separator !in there[s] && there[s] in back && back[there[s]] == s
  }

  /** A rewritten field is well formed again and keeps its defect status. */
  lemma DecodedFieldWellFormed(f: string, m: map<string, string>)
    requires WellFormed(f) && DecodeField(f, m).Ok?
    requires forall s :: s in m ==> Separator !in m[s]
    ensures WellFormed(DecodeField(f, m).value)
    ensures IsDefectField(Segments(DecodeField(f, m).value)) == IsDefectField(Segments(f))
  {
  }

  /** Rewriting one field through `there` and then through `back` gives the field again. */
  lemma FieldRoundTrip(f: string, there: map<string, string>, back: map<string, string>)
    requires WellFormed(f) && DecodeField(f, there).Ok?
    requires Undoes(back, there)
    ensures WellFormed(DecodeField(f, there).value)
    ensures DecodeField(DecodeField(f, there).value, back) == Ok(f)
  {
    var p := Segments(f);
    var g := DecodeField(f, there).value;
    DecodedFieldWellFormed(f, there);
    if IsDefectField(p) {
      var q := Segments(g);
      assert q == p[3 := there[p[3]]];
      assert q[3 := back[q[3]]] == p;
      Strings.JoinSplit(f, Separator);
    }
  }

  /**
   * Codec round trip (dashboard_test.go:1551-1553, 1676-1678): when the encode and decode maps
   * undo each other, decoding what encoding produced gives the fields back, and the other way
   * round. Encode is decode with the other map, so one statement covers both directions.
   */
  lemma {:induction false} FieldsRoundTrip(fields: seq<string>, there: map<string, string>,
                                           back: map<string, string>)
    requires AllWellFormed(fields) && DecodeFields(fields, there).Ok?
    requires Undoes(back, there)
    ensures AllWellFormed(DecodeFields(fields, there).value)
    ensures DecodeFields(DecodeFields(fields, there).value, back) == Ok(fields)
  {
    var encoded := DecodeFields(fields, there).value;
    forall i | 0 <= i < |fields|
      ensures WellFormed(encoded[i]) && DecodeField(encoded[i], back) == Ok(fields[i])
    {
      FieldRoundTrip(fields[i], there, back);
    }
    var decoded := DecodeFields(encoded, back);
    assert decoded.Ok? && decoded.value == fields;
  }

  /** When E and D are mutually inverse, each undoes the other. */
  lemma InverseMapsUndo(e: map<string, string>, d: map<string, string>)
    requires forall s :: s in d ==> Separator !in d[s] && d[s] in e && e[d[s]] == s
    requires forall s :: s in e ==> Separator !in e[s] && e[s] in d && d[e[s]] == s
    ensures Undoes(d, e) && Undoes(e, d)
  {
  }
}
