/** The header of a chat channel (frontend/src/components/CustomChannelHeader.jsx):
    the other member of the channel, with a fallback name and picture, and a
    presence line computed from the member's online flag and last activity. */
module ChannelHeader {
  import opened Common

  /** How long ago the member was last active: `now - new Date(last_active)`
      in milliseconds, or NaN when the date does not parse. */
  datatype Elapsed = Ms(ms: int) | NotANumber

  /** `member.user` as the channel state holds it. */
  datatype MemberUser = MemberUser(
    id: string,
    name: Option<string>,
    image: Option<string>,
    online: bool,
    lastActive: Option<string>)

  /** What the presence line can say. */
  datatype Presence =
    | Online
    | JustNow
    | MinutesAgo(minutes: nat)
    | HoursAgo(hours: nat)
    | DaysAgo(days: nat)
    | NotADate
    | Offline

  const MsPerMinute := 60000
  const MsPerHour := 3600000
  const MsPerDay := 86400000

  /** `getStatusText`, before the text is spelled: whole minutes are
      `Math.floor`ed (Dafny's `/` by a positive divisor is the floor), and a
      negative difference reads as just now. */
  function StatusOf(online: bool, lastActive: Option<string>, elapsed: Elapsed): (p: Presence)
    ensures online ==> p == Online
    ensures !online && !Truthy(lastActive) ==> p == Offline
    ensures p.NotADate? <==> !online && Truthy(lastActive) && elapsed.NotANumber?
  {
    if online then Online
    else if Truthy(lastActive) then
      match elapsed
      case NotANumber => NotADate
      case Ms(ms) =>
        var minutes := ms / MsPerMinute;
        if minutes < 1 then JustNow
        else if minutes < 60 then MinutesAgo(minutes)
        else if minutes < 1440 then HoursAgo(minutes / 60)
        else DaysAgo(minutes / 1440)
    else Offline
  }

  /** The buckets: each reading names the whole number of units elapsed,
      and each holds exactly the span of time below the next unit. */
  lemma StatusBuckets(lastActive: Option<string>, ms: int)
    requires Truthy(lastActive)
    ensures var p := StatusOf(false, lastActive, Ms(ms));
      && (p.JustNow? <==> ms < MsPerMinute)
      && (p.MinutesAgo? <==> MsPerMinute <= ms < MsPerHour)
      && (p.HoursAgo? <==> MsPerHour <= ms < MsPerDay)
      && (p.DaysAgo? <==> MsPerDay <= ms)
      && (p.MinutesAgo? ==> 1 <= p.minutes < 60 && p.minutes * MsPerMinute <= ms < (p.minutes + 1) * MsPerMinute)
      && (p.HoursAgo? ==> 1 <= p.hours < 24 && p.hours * MsPerHour <= ms < (p.hours + 1) * MsPerHour)
      && (p.DaysAgo? ==> 1 <= p.days && p.days * MsPerDay <= ms < (p.days + 1) * MsPerDay)
  {
    var minutes := ms / MsPerMinute;
    assert minutes * MsPerMinute <= ms < minutes * MsPerMinute + MsPerMinute;
    if 60 <= minutes < 1440 {
      var h := minutes / 60;
      assert h * 60 <= minutes < h * 60 + 60;
      assert h * MsPerHour == h * 60 * MsPerMinute;
    } else if 1440 <= minutes {
      var d := minutes / 1440;
      assert d * 1440 <= minutes < d * 1440 + 1440;
      assert d * MsPerDay == d * 1440 * MsPerMinute;
    }
  }

  /** The presence line as shown. */
  function StatusText(p: Presence): string {
    match p
    case Online => "Online"
    case JustNow => "Just now"
    case MinutesAgo(m) => Decimal(m) + "m ago"
    case HoursAgo(h) => Decimal(h) + "h ago"
    case DaysAgo(d) => Decimal(d) + "d ago"
    case NotADate => "NaNd ago"
    case Offline => "Offline"
  }

  function UnitReading(unit: char, n: nat): Option<Presence> {
    if unit == 'm' then Some(MinutesAgo(n))
    else if unit == 'h' then Some(HoursAgo(n))
    else if unit == 'd' then Some(DaysAgo(n))
    else None
  }

  /** Reads a presence line back. */
  function ParseStatus(t: string): Option<Presence> {
    if t == "Online" then Some(Online)
    else if t == "Just now" then Some(JustNow)
    else if t == "NaNd ago" then Some(NotADate)
    else if t == "Offline" then Some(Offline)
    else if |t| > 5 && t[|t| - 4..] == " ago" then
      var digits := t[..|t| - 5];
      if forall i :: 0 <= i < |digits| ==> IsDigit(digits[i]) then
        UnitReading(t[|t| - 5], DecimalValue(digits))
      else None
    else None
  }

  lemma ReadsUnit(n: nat, unit: char, p: Presence)
    requires UnitReading(unit, n) == Some(p)
    ensures ParseStatus(Decimal(n) + [unit] + " ago") == Some(p)
  {
    var t := Decimal(n) + [unit] + " ago";
    assert t[|t| - 1] == 'o' && t[|t| - 5] == unit;
    assert t[|t| - 4..] == " ago";
    assert t[..|t| - 5] == Decimal(n);
    assert t != "NaNd ago" by {
      assert t[0] == Decimal(n)[0];
    }
    DecimalRoundTrip(n);
  }

  /** Distinct presences are shown as distinct lines: the text reads back. */
  lemma StatusTextRoundTrip(p: Presence)
    ensures ParseStatus(StatusText(p)) == Some(p)
  {
    match p
    case MinutesAgo(m) =>
      assert StatusText(p) == Decimal(m) + ['m'] + " ago";
      ReadsUnit(m, 'm', p);
    case HoursAgo(h) =>
      assert StatusText(p) == Decimal(h) + ['h'] + " ago";
      ReadsUnit(h, 'h', p);
    case DaysAgo(d) =>
      assert StatusText(p) == Decimal(d) + ['d'] + " ago";
      ReadsUnit(d, 'd', p);
    case _ =>
  }

  /** What the header shows. */
  datatype HeaderView = HeaderView(name: string, image: string, online: bool, status: string)

  function NotMember(myId: string): MemberUser -> bool {
    (m: MemberUser) => m.id != myId
  }

  /** `view` shows `members[i]`, the first member who is not `myId`. */
  ghost predicate Shows(members: seq<MemberUser>, myId: string, elapsed: Elapsed, i: int, view: HeaderView) {
    && 0 <= i < |members|
    && members[i].id != myId
    && (forall j :: 0 <= j < i ==> members[j].id == myId)
    && view.name == (if Truthy(members[i].name) then members[i].name.value else "Unknown User")
    && view.image == (if Truthy(members[i].image) then members[i].image.value else "/default-avatar.png")
    && view.online == members[i].online
    && view.status == StatusText(StatusOf(members[i].online, members[i].lastActive, elapsed))
  }

  /** The header: nothing without a channel or without a member other than
      the signed-in user; otherwise the first such member, named
      "Unknown User" and pictured by "/default-avatar.png" when those are
      missing or empty. */
  function Header(members: Option<seq<MemberUser>>, myId: string, elapsed: Elapsed): (r: Option<HeaderView>)
    ensures r.None? <==> members.None? || forall i :: 0 <= i < |members.value| ==> members.value[i].id == myId
    ensures r.Some? ==> exists i :: Shows(members.value, myId, elapsed, i, r.value)
    ensures r.Some? ==> r.value.name != "" && r.value.image != ""
  {
    if members.None? then None
    else
      var other := Find(members.value, NotMember(myId));
      if other.None? then None
      else
        var u := other.value;
        var name := OrElse(u.name, Some("Unknown User"));
        var image := OrElse(u.image, Some("/default-avatar.png"));
        var view := HeaderView(name.value, image.value, u.online, StatusText(StatusOf(u.online, u.lastActive, elapsed)));
        assert exists i :: Shows(members.value, myId, elapsed, i, view) by {
          var s := members.value;
          var i :| 0 <= i < |s| && s[i] == u && NotMember(myId)(s[i]) && forall j :: 0 <= j < i ==> !NotMember(myId)(s[j]);
          assert Shows(s, myId, elapsed, i, view);
        }
        Some(view)
  }
}
