/** labels/labels.go: parsing "KEY=VALUE" and "KEY=" labels into a label map. */
module Labels {
  import opened Results
  import opened Text

  /** The key and value of a label: the text before and after the first "=",
      where the key must not be empty. */
  function Parse(lbl: string): (r: Result<(string, string)>)
    ensures r.Ok? <==> '=' in lbl && lbl[0] != '='
    ensures r.Ok? ==> lbl == r.value.0 + "=" + r.value.1
    ensures r.Ok? ==> r.value.0 != "" && '=' !in r.value.0
    ensures r.Err? ==> r.error == InvalidLabel(lbl)
  {
    var c := Cut(lbl, '=');
    if !c.found || c.before == "" then Err(InvalidLabel(lbl))
    else Ok((c.before, c.after))
  }

  predicate Valid(lbl: string) { Parse(lbl).Ok? }

  function Key(lbl: string): string
    requires Valid(lbl)
  {
    Parse(lbl).value.0
  }

  function Value(lbl: string): string
    requires Valid(lbl)
  {
    Parse(lbl).value.1
  }

  /** Labels.Add on the map's value: a valid label sets exactly its own key,
      overwriting an earlier value; an invalid one leaves the map alone. */
  function Added(m: map<string, string>, lbl: string): (r: Result<map<string, string>>)
    ensures r.Ok? <==> Valid(lbl)
    ensures r.Err? ==> r.error == InvalidLabel(lbl)
    ensures r.Ok? ==> r.value.Keys == m.Keys + {Key(lbl)} && r.value[Key(lbl)] == Value(lbl)
    ensures r.Ok? ==> forall k :: k in m && k != Key(lbl) ==> r.value[k] == m[k]
  {
    match Parse(lbl)
    case Ok(kv) => Ok(m[kv.0 := kv.1])
    case Err(e) => Err(e)
  }

  /** Adding the labels one after the other, stopping at the first invalid one. */
  function AddedAll(m: map<string, string>, labels: seq<string>): Result<map<string, string>>
    decreases |labels|
  {
    if |labels| == 0 then Ok(m)
    else match Added(m, labels[0])
      case Ok(m') => AddedAll(m', labels[1..])
      case Err(e) => Err(e)
  }

  /** What MakeLabels computes, starting from an empty map. */
  function FromList(labels: seq<string>): Result<map<string, string>>
  {
    AddedAll(map[], labels)
  }

  /** Index of the first invalid label, or |labels| if all are valid: where
      the loop of MakeLabels stops. BuildArgs has its own copy over its own
      validity test, as the Go package does. */
  function FirstInvalid(labels: seq<string>): (i: nat)
    ensures i <= |labels|
    ensures i < |labels| ==> !Valid(labels[i])
    ensures forall j :: 0 <= j < i ==> Valid(labels[j])
  {
    if |labels| == 0 then 0
    else if !Valid(labels[0]) then 0
    else 1 + FirstInvalid(labels[1..])
  }

  /** The error of adding a list is that of its first invalid label. */
  lemma {:induction false} AddedAllError(m: map<string, string>, labels: seq<string>)
    ensures AddedAll(m, labels).Err? <==> FirstInvalid(labels) < |labels|
    ensures AddedAll(m, labels).Err? ==>
              AddedAll(m, labels).error == InvalidLabel(labels[FirstInvalid(labels)])
    decreases |labels|
  {
    if |labels| > 0 && Valid(labels[0]) {
      AddedAllError(Added(m, labels[0]).value, labels[1..]);
    }
  }

  /** A list that adds without error holds only valid labels. */
  lemma {:induction false} AddedAllValid(m: map<string, string>, labels: seq<string>)
    requires AddedAll(m, labels).Ok?
    ensures forall j :: 0 <= j < |labels| ==> Valid(labels[j])
  {
    AddedAllError(m, labels);
  }

  /** The keys after adding are the old keys plus the keys given. */
  lemma {:induction false} AddedAllKeys(m: map<string, string>, labels: seq<string>, k: string)
    requires AddedAll(m, labels).Ok?
    ensures forall j :: 0 <= j < |labels| ==> Valid(labels[j])
    ensures k in AddedAll(m, labels).value <==>
              k in m || exists i :: 0 <= i < |labels| && Key(labels[i]) == k
    decreases |labels|
  {
    AddedAllValid(m, labels);
    if |labels| > 0 {
      var m' := Added(m, labels[0]).value;
      var rest := labels[1..];
      AddedAllKeys(m', rest, k);
      if exists i :: 0 <= i < |rest| && Key(rest[i]) == k {
        var i :| 0 <= i < |rest| && Key(rest[i]) == k;
        assert labels[i + 1] == rest[i];
      }
      if exists i :: 0 <= i < |labels| && Key(labels[i]) == k {
        var i :| 0 <= i < |labels| && Key(labels[i]) == k;
        if i > 0 { assert rest[i - 1] == labels[i]; }
      }
    }
  }

  /** A label whose key does not occur again later decides that key's value:
      the last occurrence of a key wins. */
  lemma {:induction false} AddedAllLastWins(m: map<string, string>, labels: seq<string>, i: nat)
    requires AddedAll(m, labels).Ok?
    requires i < |labels|
    ensures Valid(labels[i])
    ensures (forall j :: i < j < |labels| ==> Valid(labels[j]) && Key(labels[j]) != Key(labels[i])) ==>
              Key(labels[i]) in AddedAll(m, labels).value &&
              AddedAll(m, labels).value[Key(labels[i])] == Value(labels[i])
    decreases |labels|
  {
    AddedAllValid(m, labels);
    var m' := Added(m, labels[0]).value;
    var rest := labels[1..];
    if forall j :: i < j < |labels| ==> Valid(labels[j]) && Key(labels[j]) != Key(labels[i]) {
      if i > 0 {
        assert rest[i - 1] == labels[i];
        forall j | i - 1 < j < |rest|
          ensures Valid(rest[j]) && Key(rest[j]) != Key(rest[i - 1])
        {
          assert rest[j] == labels[j + 1];
        }
        AddedAllLastWins(m', rest, i - 1);
      } else {
        forall j | 0 <= j < |rest| ensures Key(rest[j]) != Key(labels[0]) {
          assert rest[j] == labels[j + 1];
        }
        AddedAllKeeps(m', rest, Key(labels[0]));
      }
    }
  }

  /** A key that none of the labels sets keeps its old value. */
  lemma {:induction false} AddedAllKeeps(m: map<string, string>, labels: seq<string>, k: string)
    requires AddedAll(m, labels).Ok?
    requires k in m
    ensures forall j :: 0 <= j < |labels| ==> Valid(labels[j])
    ensures (forall i :: 0 <= i < |labels| ==> Key(labels[i]) != k) ==>
              k in AddedAll(m, labels).value && AddedAll(m, labels).value[k] == m[k]
    decreases |labels|
  {
    AddedAllValid(m, labels);
    if |labels| > 0 && forall i :: 0 <= i < |labels| ==> Key(labels[i]) != k {
      var rest := labels[1..];
      forall i | 0 <= i < |rest| ensures Key(rest[i]) != k {
        assert rest[i] == labels[i + 1];
      }
      AddedAllKeeps(Added(m, labels[0]).value, rest, k);
    }
  }

  /** Adding the labels one after the other into a map that is updated in
      place, as the labels options of the other packages do: the labels
      before the first invalid one stay added, and the error is that of
      the first invalid label. */
  function AddedEach(m: map<string, string>, labels: seq<string>): (r: (map<string, string>, Option<Error>))
    ensures r.1.None? <==> AddedAll(m, labels).Ok?
    ensures r.1.None? ==> r.0 == AddedAll(m, labels).value
    ensures r.1.Some? ==> r.1.value == AddedAll(m, labels).error
    ensures AddedAll(m, labels[..FirstInvalid(labels)]) == Ok(r.0)
    decreases |labels|
  {
    if |labels| == 0 then (m, None)
    else
      assert Valid(labels[0]) ==>
        labels[..FirstInvalid(labels)][1..] == labels[1..][..FirstInvalid(labels[1..])];
      match Added(m, labels[0])
      case Ok(m') => AddedEach(m', labels[1..])
      case Err(e) => (m, Some(e))
  }

  /** A label map (Go: map[string]string with an in-place Add). */
  class Labels {
    var entries: map<string, string>

    constructor ()
      ensures entries == map[]
    {
      entries := map[];
    }

    /** Add a single label; on error the map is unchanged. */
    method Add(lbl: string) returns (err: Option<Error>)
      modifies this
      ensures err.None? <==> Valid(lbl)
      ensures err.Some? ==> err.value == InvalidLabel(lbl) && entries == old(entries)
      ensures err.None? ==> entries == Added(old(entries), lbl).value
    {
      var c := Cut(lbl, '=');
      if !c.found || c.before == "" {
        return Some(InvalidLabel(lbl));
      }
      entries := entries[c.before := c.after];
      return None;
    }

    /** The loop of the WithLabels options: add the labels in order,
        returning at the first invalid one with the others already added. */
    method AddEach(labels: seq<string>) returns (err: Option<Error>)
      modifies this
      ensures (entries, err) == AddedEach(old(entries), labels)
    {
      var i := 0;
      while i < |labels|
        invariant 0 <= i <= |labels|
        invariant AddedEach(old(entries), labels) == AddedEach(entries, labels[i..])
      {
        assert labels[i..][0] == labels[i] && labels[i..][1..] == labels[i + 1..];
        err := Add(labels[i]);
        if err.Some? {
          return;
        }
        i := i + 1;
      }
      return None;
    }
  }

  /** MakeLabels: a new label map holding all labels, or no map and the error
      of the first invalid label. */
  method MakeLabels(labels: seq<string>) returns (l: Labels?, err: Option<Error>)
    ensures err.None? <==> FromList(labels).Ok?
    ensures err.None? ==> l != null && fresh(l) && l.entries == FromList(labels).value
    ensures err.Some? ==> l == null && err.value == FromList(labels).error
  {
    l := new Labels();
    var i := 0;
    while i < |labels|
      invariant 0 <= i <= |labels|
      invariant fresh(l)
      invariant AddedAll(l.entries, labels[i..]) == FromList(labels)
    {
      ghost var before := l.entries;
      assert labels[i..][0] == labels[i] && labels[i..][1..] == labels[i + 1..];
      var e := l.Add(labels[i]);
      if e.Some? {
        assert AddedAll(before, labels[i..]) == Err(InvalidLabel(labels[i]));
        return null, e;
      }
      assert AddedAll(before, labels[i..]) == AddedAll(l.entries, labels[i + 1..]);
      i := i + 1;
    }
    return l, None;
  }
}
