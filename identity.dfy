/** identity/principal.go: the "user[:group]" text of a container or exec
    process, built from user and group names or numeric ids. */
module Identity {
  import opened Text

  /** A Go `~string | ~int` type argument: a name or a numeric id. */
  datatype Principal = Name(name: string) | Id(id: int)

  /** The text a principal stands for: a name as is, an id in decimal. */
  function Render(p: Principal): (s: string)
    ensures p.Name? ==> s == p.name
    ensures p.Id? && p.id >= 0 ==> s == Decimal(p.id)
    ensures p.Id? && p.id < 0 ==> s == "-" + Decimal(-p.id)
  {
    match p
    case Name(n) => n
    case Id(i) => SignedDecimal(i)
  }

  /** WithUser: the user text, replacing any previous "user:group". */
  function WithUser(id: Principal): (user: string)
    ensures id.Name? ==> user == id.name
    ensures id.Id? ==> user == SignedDecimal(id.id)
  {
    Render(id)
  }

  /** WithGroup: keeps the user part of `p` (before its first ':') and sets
      the group, or drops the group when the group text is empty. */
  function WithGroup(p: string, gid: Principal): (r: string)
    ensures Render(gid) == "" ==> r == Cut(p, ':').before
    ensures Render(gid) != "" ==> r == Cut(p, ':').before + ":" + Render(gid)
  {
    var group := Render(gid);
    var user := Cut(p, ':').before;
    if group == "" then user else user + ":" + group
  }

  /** The user part of the result is the user part of the input. */
  lemma UserKept(p: string, gid: Principal)
    ensures Cut(WithGroup(p, gid), ':').before == Cut(p, ':').before
  {
    var user := Cut(p, ':').before;
    assert ':' !in user;
    if Render(gid) != "" {
      var r := user + ":" + Render(gid);
      assert r == user + [':'] + Render(gid);
      assert r[|user|] == ':';
      assert IndexOf(r, ':') == |user|;
    }
  }

  /** The group part of the result is the group given, whatever the input's
      group was: an empty group leaves no group at all. */
  lemma GroupReplaced(p: string, gid: Principal)
    ensures Render(gid) == "" ==> ':' !in WithGroup(p, gid)
    ensures Render(gid) != "" ==> Cut(WithGroup(p, gid), ':').after == Render(gid)
  {
    UserKept(p, gid);
    var user := Cut(p, ':').before;
    if Render(gid) != "" {
      var r := WithGroup(p, gid);
      assert r == user + [':'] + Render(gid);
      assert r[|user|] == ':';
      assert IndexOf(r, ':') == |user|;
    }
  }

  /** Setting the same group twice is the same as setting it once. */
  lemma WithGroupIdempotent(p: string, gid: Principal)
    ensures WithGroup(WithGroup(p, gid), gid) == WithGroup(p, gid)
  {
    UserKept(p, gid);
  }

  /** Setting a group and then another keeps only the last one. */
  lemma WithGroupLastWins(p: string, g1: Principal, g2: Principal)
    ensures WithGroup(WithGroup(p, g1), g2) == WithGroup(p, g2)
  {
    UserKept(p, g1);
  }
}
