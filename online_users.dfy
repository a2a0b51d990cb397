/** The online-users panel: the online list without the logged-in user, its
    count, the empty state, and the "last seen" label. */
module OnlineUsers {
  import opened Wrappers
  import opened Text
  import opened ClientModel
  import Seqs
  import Utils

  /** `onlineUsers.filter(user => user.id !== currentUser?.id)`. */
  function FilteredOnlineUsers(users: seq<OnlineEntry>, current: Option<UserId>): (r: seq<OnlineEntry>)
    ensures |r| <= |users|
  {
    Seqs.Filter(users, (u: OnlineEntry) => u.id != current)
  }

  /** The filtered list is exactly the entries whose `id` is not the current
      user's, in their original order. An entry without `id` is kept when
      someone is logged in, and dropped when nobody is, since then both ids
      are `undefined`. */
  lemma FilteredIsExactlyOthers(users: seq<OnlineEntry>, current: Option<UserId>)
    ensures forall u :: u in FilteredOnlineUsers(users, current) <==> u in users && u.id != current
    ensures Seqs.IsSubsequence(FilteredOnlineUsers(users, current), users)
    ensures forall u :: multiset(FilteredOnlineUsers(users, current))[u] == (if u.id != current then multiset(users)[u] else 0)
  {
    Seqs.FilterCount(users, (u: OnlineEntry) => u.id != current);
    Seqs.FilterMembers(users, (u: OnlineEntry) => u.id != current);
    Seqs.FilterIsSubsequence(users, (u: OnlineEntry) => u.id != current);
  }

  datatype Body = Skeleton | NoOtherUsers | UserList(entries: seq<OnlineEntry>)
  datatype PanelView = PanelView(count: nat, body: Body)

  /** The panel; `loading` is the refresh button's state. */
  function Render(users: seq<OnlineEntry>, current: Option<UserId>, loading: bool): (v: PanelView)
    ensures v.count == |FilteredOnlineUsers(users, current)|
    ensures v.body.Skeleton? <==> loading
    ensures v.body.NoOtherUsers? <==> !loading && FilteredOnlineUsers(users, current) == []
    ensures v.body.UserList? ==> v.body.entries == FilteredOnlineUsers(users, current) && v.body.entries != []
  {
    var others := FilteredOnlineUsers(users, current);
    PanelView(|others|, if loading then Skeleton else if |others| == 0 then NoOtherUsers else UserList(others))
  }

  /** Which branch of `formatLastSeen` applies. */
  datatype LastSeen = Unknown | JustNow | MinutesAgo(m: nat) | HoursAgo(h: nat) | DaysAgo(d: nat) | LocaleDate(at: int)

  /** `formatLastSeen(lastSeen)` at time `now` (ms); `None` is a falsy `lastSeen`. */
  function FormatLastSeen(lastSeen: Option<int>, now: int): (r: LastSeen)
    ensures r.Unknown? <==> lastSeen.None?
    ensures r.JustNow? <==> lastSeen.Some? && now - lastSeen.value < 60000
    ensures r.MinutesAgo? <==> lastSeen.Some? && 60000 <= now - lastSeen.value < 3600000
    ensures r.HoursAgo? <==> lastSeen.Some? && 3600000 <= now - lastSeen.value < 86400000
    ensures r.DaysAgo? <==> lastSeen.Some? && 86400000 <= now - lastSeen.value < 7 * 86400000
    ensures r.LocaleDate? <==> lastSeen.Some? && now - lastSeen.value >= 7 * 86400000
    ensures r.MinutesAgo? ==> 1 <= r.m < 60 && r.m == (now - lastSeen.value) / 60000
    ensures r.HoursAgo? ==> 1 <= r.h < 24 && r.h == (now - lastSeen.value) / 3600000
    ensures r.DaysAgo? ==> 1 <= r.d < 7 && r.d == (now - lastSeen.value) / 86400000
    ensures r.LocaleDate? ==> r.at == lastSeen.value
  {
    if lastSeen.None? then Unknown
    else
      var diff := now - lastSeen.value;
      var mins := diff / 60000;
      var hours := diff / 3600000;
      var days := diff / 86400000;
      if mins < 1 then JustNow
      else if mins < 60 then MinutesAgo(mins)
      else if hours < 24 then HoursAgo(hours)
      else if days < 7 then DaysAgo(days)
      else LocaleDate(lastSeen.value)
  }

  /** The label's text; a locale date is left opaque. */
  function Label(l: LastSeen): Option<string> {
    match l
    case Unknown => Some("Unknown")
    case JustNow => Some("Just now")
    case MinutesAgo(m) => Some(NatToString(m) + "m ago")
    case HoursAgo(h) => Some(NatToString(h) + "h ago")
    case DaysAgo(d) => Some(NatToString(d) + "d ago")
    case LocaleDate(_) => None
  }

  /** Below a week, the panel's label and the shared relative-time helper agree. */
  lemma LastSeenAgreesWithRelativeTime(lastSeen: Option<int>, now: int)
    requires lastSeen.None? || now - lastSeen.value < 7 * 86400000
    ensures Label(FormatLastSeen(lastSeen, now)) == Some(Utils.FormatRelativeTime(lastSeen, now))
  {
  }
}
