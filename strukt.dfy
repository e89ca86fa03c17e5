/** strukt/strukt.go: unmarshalling a delimited string into the fields of a
    struct, in the order the fields are declared. Go reflection is modelled
    by a struct object holding its fields as a sequence, each field knowing
    its name, whether it is settable (exported) and whether it is a string. */
module Strukt {
  import opened Results
  import opened Text

  datatype Field = Field(name: string, settable: bool, isString: bool, value: string)

  /** A struct value whose fields Unmarshal sets in place. */
  class Struct {
    var fields: seq<Field>

    constructor (fields: seq<Field>)
      ensures this.fields == fields
    {
      this.fields := fields;
    }
  }

  /** What Unmarshal is handed: a non-pointer, a pointer to something else
      than a struct, or a pointer to a struct. */
  datatype Target = NotPointer | PointerToOther | PointerToStruct(obj: Struct)

  /** The fields with the first |pieces| values replaced by the pieces. */
  function Assign(fields: seq<Field>, pieces: seq<string>): (r: seq<Field>)
    requires |pieces| <= |fields|
    ensures |r| == |fields|
    ensures forall j :: 0 <= j < |pieces| ==> r[j] == fields[j].(value := pieces[j])
    ensures forall j :: |pieces| <= j < |fields| ==> r[j] == fields[j]
  {
    seq(|fields|, j requires 0 <= j < |fields| =>
      if j < |pieces| then fields[j].(value := pieces[j]) else fields[j])
  }

  /** A field SetString can write to. */
  predicate Writable(f: Field) { f.settable && f.isString }

  /** Index of the first field among the first n that cannot take a string,
      or n when there is none. */
  function FirstUnwritable(fields: seq<Field>, n: nat): (i: nat)
    requires n <= |fields|
    ensures i <= n
    ensures i < n ==> !Writable(fields[i])
    ensures forall j :: 0 <= j < i ==> Writable(fields[j])
    decreases n
  {
    if n == 0 then 0
    else
      var i := FirstUnwritable(fields, n - 1);
      if i < n - 1 then i else if Writable(fields[n - 1]) then n else n - 1
  }

  /** The error for a field SetString cannot write to; settability is
      checked first. */
  function FieldError(f: Field): Error
  {
    if !f.settable then CannotSetField(f.name) else FieldNotString(f.name)
  }

  /** The outcome of unmarshalling into a struct with `fields`: the new
      fields and the error, if any. */
  function Unmarshalled(s: string, delim: char, fields: seq<Field>): (seq<Field>, Option<Error>)
  {
    var pieces := Split(s, delim);
    if |pieces| > |fields| then (fields, Some(TooManyFields))
    else
      var bad := FirstUnwritable(fields, |pieces|);
      (Assign(fields, pieces[..bad]), if bad < |pieces| then Some(FieldError(fields[bad])) else None)
  }

  /** Unmarshal succeeds exactly when the string has no more pieces than the
      struct has fields and all fields receiving a piece are writable; then
      piece i lands in field i, and the other fields keep their values. Too
      many pieces is an error that leaves every field alone. */
  lemma UnmarshalledOk(s: string, delim: char, fields: seq<Field>)
    ensures |Split(s, delim)| > |fields| ==>
      Unmarshalled(s, delim, fields) == (fields, Some(TooManyFields))
    ensures var pieces := Split(s, delim);
      Unmarshalled(s, delim, fields).1.None? <==>
        |pieces| <= |fields| && forall j :: 0 <= j < |pieces| ==> Writable(fields[j])
    ensures var pieces := Split(s, delim);
      Unmarshalled(s, delim, fields).1.None? ==>
        |Unmarshalled(s, delim, fields).0| == |fields| &&
        (forall j :: 0 <= j < |pieces| ==> Unmarshalled(s, delim, fields).0[j].value == pieces[j]) &&
        (forall j :: |pieces| <= j < |fields| ==> Unmarshalled(s, delim, fields).0[j] == fields[j])
  {
    var pieces := Split(s, delim);
    if |pieces| <= |fields| {
      var bad := FirstUnwritable(fields, |pieces|);
      if bad == |pieces| {
        assert pieces[..bad] == pieces;
      }
    }
  }

  /** An unwritable field among those receiving a piece: the error names the
      first such field, the fields before it are already set, it and the
      fields after it are not. */
  lemma UnmarshalledPartial(s: string, delim: char, fields: seq<Field>, bad: nat)
    requires |Split(s, delim)| <= |fields|
    requires bad < |Split(s, delim)| && !Writable(fields[bad])
    requires forall j :: 0 <= j < bad ==> Writable(fields[j])
    ensures Unmarshalled(s, delim, fields).1 == Some(FieldError(fields[bad]))
    ensures forall j :: 0 <= j < bad ==> Unmarshalled(s, delim, fields).0[j].value == Split(s, delim)[j]
    ensures forall j :: bad <= j < |fields| ==> Unmarshalled(s, delim, fields).0[j] == fields[j]
  {
    var pieces := Split(s, delim);
    var i := FirstUnwritable(fields, |pieces|);
    assert i == bad;
  }

  /** Each separator adds one piece: "::" gives three empty pieces. */
  lemma SplitOnlySeparators()
    ensures Split("::", ':') == ["", "", ""]
  {
    assert Cut("::", ':') == CutResult("", ":", true);
    assert Cut(":", ':') == CutResult("", "", true);
    assert Cut("", ':') == CutResult("", "", false);
  }

  /** Unmarshal with a single-character delimiter. */
  method Unmarshal(s: string, delim: char, t: Target) returns (err: Option<Error>)
    modifies if t.PointerToStruct? then {t.obj} else {}
    ensures !t.PointerToStruct? ==> err == Some(NotStructPointer)
    ensures t.PointerToStruct? ==>
              (t.obj.fields, err) == Unmarshalled(s, delim, old(t.obj.fields))
  {
    if !t.PointerToStruct? {
      return Some(NotStructPointer);
    }
    var obj := t.obj;
    var pieces := Split(s, delim);
    if |pieces| > |obj.fields| {
      return Some(TooManyFields);
    }
    ghost var fields0 := obj.fields;
    var i := 0;
    while i < |pieces|
      invariant 0 <= i <= |pieces|
      invariant forall j :: 0 <= j < i ==> Writable(fields0[j])
      invariant obj.fields == Assign(fields0, pieces[..i])
    {
      var f := obj.fields[i];
      if !f.settable {
        assert FirstUnwritable(fields0, |pieces|) == i;
        return Some(CannotSetField(f.name));
      }
      if !f.isString {
        assert FirstUnwritable(fields0, |pieces|) == i;
        return Some(FieldNotString(f.name));
      }
      obj.fields := obj.fields[i := f.(value := pieces[i])];
      assert obj.fields == Assign(fields0, pieces[..i + 1]);
      i := i + 1;
    }
    assert FirstUnwritable(fields0, |pieces|) == |pieces|;
    assert pieces[..i] == pieces;
    return None;
  }
}
