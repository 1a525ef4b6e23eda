/**
 * `Header.tsx`: the branding line, the notification list with its unread
 * badge and its two "mark as read" actions, and the relative age shown for
 * each notification.
 */
module Header {
  import opened Wrappers
  import opened Text
  import opened Seqs
  import opened Criteria
  import opened Model
  import opened Auth

  /** The title and subtitle of the header: a (case-sensitive) SUPERADMIN sees
      the national brand, anyone else the name of their cooperative, or a
      generic name when they have none or it is empty. */
  function Brand(session: Option<User>): (title: (string, string))
    ensures HeaderSuperadmin(session) ==> title == ("TKBM Indonesia", "National Management System")
    ensures !HeaderSuperadmin(session) ==> title.1 == "Management System"
    ensures !HeaderSuperadmin(session) && session.Some? && session.value.tenant.Some? && session.value.tenant.value.name != "" ==>
      title.0 == session.value.tenant.value.name
    ensures !HeaderSuperadmin(session) && (session.None? || session.value.tenant.None? || session.value.tenant.value.name == "") ==>
      title.0 == "TKBM Cooperative"
  {
    if HeaderSuperadmin(session) then ("TKBM Indonesia", "National Management System")
    else if session.Some? && session.value.tenant.Some? && session.value.tenant.value.name != "" then
      (session.value.tenant.value.name, "Management System")
    else ("TKBM Cooperative", "Management System")
  }

  /** After `login`, the header brands the superadmin account nationally, the
      admin and pbm accounts with the Jakarta Utara cooperative, and every
      other account generically. */
  lemma LoginBrand(c: Credentials)
    ensures Lower(c.account) == "superadmin" ==> Brand(Some(Login(c))).0 == "TKBM Indonesia"
    ensures c.account == "admin" || c.account == "pbm" ==> Brand(Some(Login(c))).0 == JakartaUtara.name
    ensures Lower(c.account) != "superadmin" && c.account != "admin" && c.account != "pbm" ==>
      Brand(Some(Login(c))).0 == "TKBM Cooperative"
  {
    LoginSuperadmin(c);
    if c.account == "pbm" {
      LowerSuperadmin();
      assert Lower(c.account) != "superadmin" by {
        assert Lower(c.account)[0] == 'p';
      }
    }
  }

  datatype NotificationType = Info | Success | Warning | Error

  datatype Notification = Notification(
    id: string,
    kind: NotificationType,
    title: string,
    message: string,
    timestamp: DateText,
    read: bool)

  predicate IsUnread(n: Notification) {
    !n.read
  }

  /** `unreadCount`. */
  function UnreadCount(ns: seq<Notification>): (n: nat)
    ensures n <= |ns|
    ensures n == 0 <==> forall i :: 0 <= i < |ns| ==> ns[i].read
  {
    FilterEmpty(ns, IsUnread);
    |Filter(ns, IsUnread)|
  }

  /** The unread notifications carrying this id. */
  function UnreadWith(id: string): Notification -> bool {
    (n: Notification) => !n.read && n.id == id
  }

  /** `markAsRead`: the notifications with this id become read; nothing else changes. */
  function MarkAsRead(ns: seq<Notification>, id: string): (r: seq<Notification>)
    ensures |r| == |ns|
    ensures forall i :: 0 <= i < |r| ==> r[i] == ns[i].(read := ns[i].read || ns[i].id == id)
  {
    if |ns| == 0 then []
    else [ns[0].(read := ns[0].read || ns[0].id == id)] + MarkAsRead(ns[1..], id)
  }

  /** Marking one id read lowers the unread count by exactly the number of
      unread notifications carrying it: by one for a unique unread id, not at
      all for an id already read or absent. */
  lemma {:induction false} MarkAsReadCount(ns: seq<Notification>, id: string)
    ensures UnreadCount(MarkAsRead(ns, id)) + |Filter(ns, UnreadWith(id))| == UnreadCount(ns)
  {
    if |ns| > 0 {
      var r := MarkAsRead(ns, id);
      assert r[1..] == MarkAsRead(ns[1..], id);
      MarkAsReadCount(ns[1..], id);
      SumFilterStep(r, IsUnread, One);
      SumFilterStep(ns, IsUnread, One);
      SumFilterStep(ns, UnreadWith(id), One);
    }
  }

  /** Marking the same id twice is marking it once. */
  lemma MarkAsReadIdempotent(ns: seq<Notification>, id: string)
    ensures MarkAsRead(MarkAsRead(ns, id), id) == MarkAsRead(ns, id)
  {
  }

  /** `markAllAsRead`: every notification becomes read; nothing else changes. */
  function MarkAllAsRead(ns: seq<Notification>): (r: seq<Notification>)
    ensures |r| == |ns|
    ensures forall i :: 0 <= i < |r| ==> r[i] == ns[i].(read := true)
  {
    seq(|ns|, i requires 0 <= i < |ns| => ns[i].(read := true))
  }

  /** After "mark all" nothing is unread, and marking one id beforehand makes
      no difference to the outcome. */
  lemma MarkAllClears(ns: seq<Notification>, id: string)
    ensures UnreadCount(MarkAllAsRead(ns)) == 0
    ensures MarkAllAsRead(MarkAsRead(ns, id)) == MarkAllAsRead(ns)
  {
  }

  /** The bell badge: hidden with nothing unread, "9+" beyond nine, the count otherwise. */
  function Badge(unread: nat): (shown: Option<string>)
    ensures shown.None? <==> unread == 0
    ensures shown == Some("9+") <==> unread > 9
    ensures 0 < unread <= 9 ==> shown.Some? && |shown.value| == 1 && AllDigits(shown.value)
  {
    if unread == 0 then None
    else if unread > 9 then Some("9+")
    else Some(ShowNat(unread))
  }

  /** A one-digit badge reads back as the unread count. */
  lemma BadgeReadsBack(unread: nat)
    requires 0 < unread <= 9
    ensures ReadNat(Badge(unread).value) == unread
  {
    ReadShowNat(unread);
  }

  const MsPerMinute: int := 60 * 1000
  const MsPerHour: int := 60 * MsPerMinute

  /** The relative age `formatTimeAgo` renders. A timestamp `new Date` cannot
      parse yields NaN, which fails every comparison and ends in the days branch. */
  datatype TimeAgo = JustNow | MinutesAgo(n: int) | HoursAgo(n: int) | DaysAgo(n: int) | NotANumber

  /** A positive multiple of d is at least d. */
  lemma {:induction false} MultipleAtLeast(k: int, d: int)
    requires k >= 1 && d > 0
    ensures k * d >= d
    decreases k
  {
    if k > 1 {
      MultipleAtLeast(k - 1, d);
      assert k * d == (k - 1) * d + d;
    }
  }

  /** A quotient is determined by any decomposition with a remainder in range. */
  lemma DivUnique(a: int, d: int, q: int, r: int)
    requires d > 0 && 0 <= r < d && a == q * d + r
    ensures a / d == q
  {
    var q', r' := a / d, a % d;
    assert (q - q') * d == r' - r;
    if q > q' {
      MultipleAtLeast(q - q', d);
    } else if q < q' {
      MultipleAtLeast(q' - q, d);
    }
  }

  /** The remainder of the second division, scaled back, stays below one step of b * c. */
  lemma ScaledRemainder(r2: int, r1: int, b: int, c: int)
    requires 0 <= r2 < c && 0 <= r1 < b
    ensures 0 <= r2 * b + r1 < b * c
  {
    if r2 > 0 {
      MultipleAtLeast(c - r2, b);
      assert r2 * b + (c - r2) * b == c * b;
    }
  }

  /** Floor division by b and then by c is floor division by b * c. */
  lemma FloorDivTwice(a: int, b: int, c: int)
    requires b > 0 && c > 0
    ensures a / b / c == a / (b * c)
  {
    var q1, r1 := a / b, a % b;
    var q, r2 := q1 / c, q1 % c;
    assert a == (q * c + r2) * b + r1;
    assert (q * c + r2) * b == q * (b * c) + r2 * b;
    ScaledRemainder(r2, r1, b, c);
    DivUnique(a, b * c, q, r2 * b + r1);
  }

  /** The whole minutes, hours and days in d, each step dividing the previous
      one, bracket d as a single division by the step's length would. */
  lemma StepBounds(d: int)
    ensures var minutes := d / MsPerMinute;
            var hours := minutes / 60;
            var days := hours / 24;
            && minutes * MsPerMinute <= d < (minutes + 1) * MsPerMinute
            && hours * MsPerHour <= d < (hours + 1) * MsPerHour
            && days * MsPerDay <= d < (days + 1) * MsPerDay
  {
    FloorDivTwice(d, MsPerMinute, 60);
    FloorDivTwice(d, MsPerHour, 24);
  }

  /** The minute, hour and day steps of `formatTimeAgo`, each a floor division. */
  function AgeOf(now: int, t: Option<int>): (a: TimeAgo)
    ensures t.None? <==> a.NotANumber?
    ensures a.JustNow? <==> t.Some? && now - t.value < MsPerMinute
    ensures a.MinutesAgo? <==> t.Some? && MsPerMinute <= now - t.value < MsPerHour
    ensures a.HoursAgo? <==> t.Some? && MsPerHour <= now - t.value < MsPerDay
    ensures a.DaysAgo? <==> t.Some? && MsPerDay <= now - t.value
    ensures a.MinutesAgo? ==> 1 <= a.n < 60 && a.n * MsPerMinute <= now - t.value < (a.n + 1) * MsPerMinute
    ensures a.HoursAgo? ==> 1 <= a.n < 24 && a.n * MsPerHour <= now - t.value < (a.n + 1) * MsPerHour
    ensures a.DaysAgo? ==> 1 <= a.n && a.n * MsPerDay <= now - t.value < (a.n + 1) * MsPerDay
  {
    if t.None? then NotANumber
    else
      var minutes := (now - t.value) / MsPerMinute;
      var hours := minutes / 60;
      StepBounds(now - t.value);
      if minutes < 1 then JustNow
      else if minutes < 60 then MinutesAgo(minutes)
      else if hours < 24 then HoursAgo(hours)
      else DaysAgo(hours / 24)
  }

  /** `formatTimeAgo` for a notification's timestamp. */
  function FormatTimeAgo(now: int, timestamp: DateText): (text: string)
    ensures text == "Baru saja" <==> AgeOf(now, Parse(timestamp)).JustNow?
    ensures Parse(timestamp).None? ==> text == "NaN hari yang lalu"
    ensures var a := AgeOf(now, Parse(timestamp));
            && (a.MinutesAgo? ==> text == ShowNat(a.n) + " menit yang lalu")
            && (a.HoursAgo? ==> text == ShowNat(a.n) + " jam yang lalu")
            && (a.DaysAgo? ==> text == ShowNat(a.n) + " hari yang lalu")
  {
    match AgeOf(now, Parse(timestamp))
    case JustNow => "Baru saja"
    case MinutesAgo(n) => ShowNat(n) + " menit yang lalu"
    case HoursAgo(n) => ShowNat(n) + " jam yang lalu"
    case DaysAgo(n) => ShowNat(n) + " hari yang lalu"
    case NotANumber => "NaN hari yang lalu"
  }
}
