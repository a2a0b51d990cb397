/** The chat area: nothing without a current room; otherwise the room header
    (initial, name, member count, description, private badge) and the
    typing indicator. */
module ChatArea {
  import opened Wrappers
  import opened Text
  import opened ClientModel

  /** `currentRoom.Users?.length || 0`. */
  function MemberCount(room: RoomView): (n: nat)
    ensures room.users.Some? ==> n == |room.users.value|
    ensures room.users.None? ==> n == 0
  {
    if room.users.Some? then |room.users.value| else 0
  }

  /** The indicator's text, absent when nobody is typing. */
  function TypingLabel(typers: seq<string>): (r: Option<string>)
    ensures r.None? <==> typers == []
    ensures |typers| == 1 ==> r == Some(typers[0] + " is typing...")
    ensures |typers| >= 2 ==>
      r == Some(Join(typers[..|typers| - 1], ", ") + " and " + typers[|typers| - 1] + " are typing...")
  {
    if |typers| == 0 then None
    else if |typers| == 1 then Some(typers[0] + " is typing...")
    else Some(Join(typers[..|typers| - 1], ", ") + " and " + typers[|typers| - 1] + " are typing...")
  }

  datatype Header = Header(initial: string, name: string, memberCount: nat, description: Option<string>, isPrivate: bool)
  datatype AreaView = AreaView(header: Header, typingLabel: Option<string>)

  function Render(room: Option<RoomView>, typers: seq<string>): (v: Option<AreaView>)
    ensures v.None? <==> room.None?
    ensures v.Some? ==> v.value.typingLabel == TypingLabel(typers)
    ensures v.Some? ==> v.value.header.memberCount == MemberCount(room.value) && v.value.header.name == room.value.name
    ensures v.Some? ==>
      (v.value.header.description.Some? <==> room.value.description.Some? && room.value.description.value != "")
    ensures v.Some? && v.value.header.description.Some? ==> v.value.header.description == room.value.description
    ensures v.Some? ==> v.value.header.isPrivate == room.value.isPrivate
    ensures v.Some? && room.value.name == "" ==> v.value.header.initial == ""
    ensures v.Some? && room.value.name != "" ==> v.value.header.initial == [UpperChar(room.value.name[0])]
  {
    if room.None? then None
    else
      var r := room.value;
      var shown := if r.description.Some? && r.description.value != "" then r.description else None;
      Some(AreaView(Header(Upper(if r.name == "" then "" else r.name[..1]), r.name, MemberCount(r), shown, r.isPrivate),
                    TypingLabel(typers)))
  }

  /** `t` occurs in `s` at position `k`. */
  predicate OccursAt(s: string, t: string, k: int) {
    0 <= k <= |s| - |t| && s[k..k + |t|] == t
  }

  /** `t` occurs in `s`. */
  ghost predicate Contains(s: string, t: string) {
    exists k :: OccursAt(s, t, k)
  }

  lemma ContainsMiddle(a: string, t: string, b: string)
    ensures Contains(a + t + b, t)
  {
    assert (a + t + b)[|a|..|a| + |t|] == t;
    assert OccursAt(a + t + b, t, |a|);
  }

  lemma ContainsExtend(s: string, t: string, b: string)
    requires Contains(s, t)
    ensures Contains(s + b, t)
  {
    var k :| OccursAt(s, t, k);
    assert (s + b)[k..k + |t|] == s[k..k + |t|];
    assert OccursAt(s + b, t, k);
  }

  /** Every part occurs in the joined text. */
  lemma {:induction false} JoinContainsParts(parts: seq<string>, sep: string, i: nat)
    requires i < |parts|
    ensures Contains(Join(parts, sep), parts[i])
    decreases |parts|
  {
    if |parts| == 1 {
      ContainsMiddle("", parts[0], "");
      assert "" + parts[0] + "" == parts[0];
    } else {
      var init := parts[..|parts| - 1];
      if i == |parts| - 1 {
        ContainsMiddle(Join(init, sep) + sep, parts[i], "");
        assert Join(init, sep) + sep + parts[i] + "" == Join(parts, sep);
      } else {
        JoinContainsParts(init, sep, i);
        ContainsExtend(Join(init, sep), parts[i], sep + parts[|parts| - 1]);
        assert Join(init, sep) + (sep + parts[|parts| - 1]) == Join(parts, sep);
      }
    }
  }

  /** The indicator names every typer. */
  lemma LabelNamesEveryTyper(typers: seq<string>, i: nat)
    requires i < |typers|
    ensures Contains(TypingLabel(typers).value, typers[i])
  {
    var n := |typers|;
    if n == 1 {
      ContainsMiddle("", typers[0], " is typing...");
      assert "" + typers[0] + " is typing..." == TypingLabel(typers).value;
    } else if i == n - 1 {
      var front := Join(typers[..n - 1], ", ") + " and ";
      ContainsMiddle(front, typers[i], " are typing...");
    } else {
      JoinContainsParts(typers[..n - 1], ", ", i);
      var j := Join(typers[..n - 1], ", ");
      ContainsExtend(j, typers[i], " and " + typers[n - 1] + " are typing...");
      assert j + (" and " + typers[n - 1] + " are typing...") == TypingLabel(typers).value;
    }
  }

  /** Two and three typers, spelled out. */
  lemma LabelExamples(a: string, b: string, c: string)
    ensures TypingLabel([a, b]) == Some(a + " and " + b + " are typing...")
    ensures TypingLabel([a, b, c]) == Some(a + ", " + b + " and " + c + " are typing...")
  {
    assert [a, b][..1] == [a];
    assert [a, b, c][..2] == [a, b];
  }
}
