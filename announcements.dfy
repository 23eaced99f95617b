/** The announcement board (components/Announcements.tsx): the relative-time
    label of a post, posting with optional media, and deleting a post. */
module Announcements {
  import opened Collections
  import opened Text
  import opened Types

  // ---------------------------------------------------------------------
  // formatTimeAgo
  // ---------------------------------------------------------------------

  datatype TimeUnit = Year | Month | Day | Hour | Minute

  /** The length of a unit in seconds (a year is 365 days, a month 30). */
  function UnitSeconds(u: TimeUnit): (n: nat)
    ensures n >= 60
  {
    match u
    case Year => 31536000
    case Month => 2592000
    case Day => 86400
    case Hour => 3600
    case Minute => 60
  }

  function UnitWord(u: TimeUnit): string
  {
    match u
    case Year => "year"
    case Month => "month"
    case Day => "day"
    case Hour => "hour"
    case Minute => "minute"
  }

  /** The units the label tries, largest first. */
  const Cascade: seq<TimeUnit> := [Year, Month, Day, Hour, Minute]

  /** What a label says: a count of some unit, "just now", a count of
      seconds, or NaN seconds when the timestamp could not be read. */
  datatype Ago = Counted(count: nat, unit: TimeUnit) | JustNow | SecondsAgo(seconds: nat) | NotANumber

  /** The position in `units` of the first unit that `seconds` strictly
      exceeds; `|units|` when there is none. */
  function FirstExceeded(seconds: int, units: seq<TimeUnit>): (r: nat)
    ensures r <= |units|
    ensures r < |units| ==> seconds > UnitSeconds(units[r])
    ensures forall j :: 0 <= j < r ==> seconds <= UnitSeconds(units[j])
    decreases |units|
  {
    if units == [] then 0
    else if seconds > UnitSeconds(units[0]) then 0
    else 1 + FirstExceeded(seconds, units[1..])
  }

  /** The label for a whole number of elapsed seconds: the first unit of the
      cascade that the seconds exceed, counted in whole units; otherwise
      "just now" below ten seconds and a count of seconds from there on. */
  function Describe(seconds: int): Ago
  {
    var i := FirstExceeded(seconds, Cascade);
    if i < |Cascade| then Counted(seconds / UnitSeconds(Cascade[i]), Cascade[i])
    else if seconds < 10 then JustNow
    else SecondsAgo(seconds)
  }

  /** "1 <unit> ago" for one unit, "<n> <unit>s ago" otherwise. */
  function Phrase(n: nat, word: string): string
  {
    if n == 1 then "1 " + word + " ago" else NatToString(n) + " " + word + "s ago"
  }

  function Render(a: Ago): string
  {
    match a
    case Counted(n, u) => Phrase(n, UnitWord(u))
    case JustNow => "just now"
    case SecondsAgo(n) => NatToString(n) + " seconds ago"
    case NotANumber => "NaN seconds ago"
  }

  /** formatTimeAgo, given the milliseconds from the post's timestamp to the
      clock reading (None when the timestamp cannot be read, so that the
      difference is NaN): whole seconds are the floor of the milliseconds
      over 1000. */
  function TimeAgo(elapsedMs: Option<int>): string
  {
    match elapsedMs
    case None => Render(NotANumber)
    case Some(ms) => Render(Describe(ms / 1000))
  }

  /** The real quotient `s / u` exceeds 1 exactly when `s` exceeds `u`, and
      its floor is the integer quotient. */
  lemma RealQuotient(s: int, u: nat)
    requires u > 0
    ensures s as real / u as real > 1.0 <==> s > u
    ensures (s as real / u as real).Floor == s / u
  {
    var q, m := s / u, s % u;
    assert s == q * u + m && 0 <= m < u;
    assert s as real / u as real == q as real + m as real / u as real;
    assert 0.0 <= m as real / u as real < 1.0;
  }

  /** The position of a unit in the cascade. */
  function Rank(u: TimeUnit): (r: nat)
    ensures r < |Cascade| && Cascade[r] == u
  {
    match u
    case Year => 0
    case Month => 1
    case Day => 2
    case Hour => 3
    case Minute => 4
  }

  /** The cascade lists each unit once, at its rank. */
  lemma CascadeRank(j: nat)
    requires j < |Cascade|
    ensures Rank(Cascade[j]) == j
  {
    if j == 0 {
    } else if j == 1 {
    } else if j == 2 {
    } else if j == 3 {
    } else {
      assert j == 4;
    }
  }

  /** The cascade runs from the longest unit to the shortest. */
  lemma LongerFirst(u: TimeUnit, v: TimeUnit)
    requires Rank(u) <= Rank(v)
    ensures UnitSeconds(u) >= UnitSeconds(v)
  {
  }

  /** Not exceeding a unit means not exceeding any unit before it. */
  lemma NoneBefore(seconds: int, i: nat)
    requires i < |Cascade| && seconds <= UnitSeconds(Cascade[i])
    ensures forall j :: 0 <= j <= i ==> seconds <= UnitSeconds(Cascade[j])
  {
    forall j | 0 <= j <= i
      ensures seconds <= UnitSeconds(Cascade[j])
    {
      CascadeRank(j);
      CascadeRank(i);
      LongerFirst(Cascade[j], Cascade[i]);
    }
  }

  /** The first unit exceeded is unit `i` when `seconds` exceeds it and not
      the unit before it. */
  lemma DescribeAt(seconds: int, i: nat)
    requires i < |Cascade| && seconds > UnitSeconds(Cascade[i])
    requires i == 0 || seconds <= UnitSeconds(Cascade[i - 1])
    ensures FirstExceeded(seconds, Cascade) == i
    ensures Describe(seconds) == Counted(seconds / UnitSeconds(Cascade[i]), Cascade[i])
  {
    if i > 0 {
      NoneBefore(seconds, i - 1);
    }
  }

  /** The text for seconds that exceed unit `u` and not the unit before it. */
  lemma RenderUnit(seconds: int, u: TimeUnit)
    requires seconds > UnitSeconds(u)
    requires u == Year || seconds <= UnitSeconds(Cascade[Rank(u) - 1])
    ensures Render(Describe(seconds)) == Phrase(seconds / UnitSeconds(u), UnitWord(u))
  {
    DescribeAt(seconds, Rank(u));
  }

  /** Up to a minute, no unit is exceeded and only the seconds are left. */
  lemma DescribeUpToMinute(seconds: int)
    requires seconds <= 60
    ensures FirstExceeded(seconds, Cascade) == |Cascade|
    ensures Describe(seconds) == if seconds < 10 then JustNow else SecondsAgo(seconds)
  {
    NoneBefore(seconds, 4);
  }

  /** The text up to a minute. */
  lemma RenderUpToMinute(seconds: int)
    requires seconds <= 60
    ensures Render(Describe(seconds)) == if seconds < 10 then "just now" else NatToString(seconds) + " seconds ago"
  {
    DescribeUpToMinute(seconds);
  }

  /** formatTimeAgo: an unreadable timestamp reads as NaN seconds; otherwise
      the label of the whole seconds elapsed. */
  method FormatTimeAgo(elapsedMs: Option<int>) returns (text: string)
    ensures text == TimeAgo(elapsedMs)
  {
    if elapsedMs.None? {
      // Every comparison with NaN is false: the cascade falls through to the end.
      text := "NaN seconds ago";
      return;
    }
    text := FormatSeconds(elapsedMs.value / 1000);
  }

  /** The cascade of formatTimeAgo as written: `interval` is reassigned to
      the seconds over each unit in turn, and the first one above 1 returns
      its floor. */
  method FormatSeconds(seconds: int) returns (text: string)
    ensures text == Render(Describe(seconds))
  {
    var interval: real := seconds as real / 31536000.0;
    assert interval > 1.0 <==> seconds > 31536000 by { RealQuotient(seconds, 31536000); }
    if interval > 1.0 {
      assert interval.Floor == seconds / 31536000 by { RealQuotient(seconds, 31536000); }
      RenderUnit(seconds, Year);
      text := Phrase(interval.Floor, "year");
      return;
    }
    interval := seconds as real / 2592000.0;
    assert interval > 1.0 <==> seconds > 2592000 by { RealQuotient(seconds, 2592000); }
    if interval > 1.0 {
      assert interval.Floor == seconds / 2592000 by { RealQuotient(seconds, 2592000); }
      RenderUnit(seconds, Month);
      text := Phrase(interval.Floor, "month");
      return;
    }
    interval := seconds as real / 86400.0;
    assert interval > 1.0 <==> seconds > 86400 by { RealQuotient(seconds, 86400); }
    if interval > 1.0 {
      assert interval.Floor == seconds / 86400 by { RealQuotient(seconds, 86400); }
      RenderUnit(seconds, Day);
      text := Phrase(interval.Floor, "day");
      return;
    }
    interval := seconds as real / 3600.0;
    assert interval > 1.0 <==> seconds > 3600 by { RealQuotient(seconds, 3600); }
    if interval > 1.0 {
      assert interval.Floor == seconds / 3600 by { RealQuotient(seconds, 3600); }
      RenderUnit(seconds, Hour);
      text := Phrase(interval.Floor, "hour");
      return;
    }
    interval := seconds as real / 60.0;
    assert interval > 1.0 <==> seconds > 60 by { RealQuotient(seconds, 60); }
    if interval > 1.0 {
      assert interval.Floor == seconds / 60 by { RealQuotient(seconds, 60); }
      RenderUnit(seconds, Minute);
      text := Phrase(interval.Floor, "minute");
      return;
    }
    RenderUpToMinute(seconds);
    if seconds < 10 {
      text := "just now";
      return;
    }
    text := NatToString(seconds) + " seconds ago";
  }

  /** The whole number of times a unit fits into more than one unit. */
  lemma WholeUnits(seconds: int, u: nat)
    requires 0 < u < seconds
    ensures var n := seconds / u; n >= 1 && n * u <= seconds < (n + 1) * u
  {
    var n, m := seconds / u, seconds % u;
    assert seconds == n * u + m && 0 <= m < u;
    assert (n + 1) * u == n * u + u;
    assert n * u > 0;
  }

  /** A unit is reported exactly when the seconds strictly exceed it and do
      not exceed any larger unit; its count is the whole number of units
      elapsed, at least one. */
  lemma DescribeCountedIff(seconds: int, i: nat)
    requires i < |Cascade|
    ensures (Describe(seconds).Counted? && Describe(seconds).unit == Cascade[i])
      <==> (seconds > UnitSeconds(Cascade[i]) && forall j :: 0 <= j < i ==> seconds <= UnitSeconds(Cascade[j]))
    ensures Describe(seconds).Counted? && Describe(seconds).unit == Cascade[i] ==>
      var n := Describe(seconds).count;
      n >= 1 && n * UnitSeconds(Cascade[i]) <= seconds < (n + 1) * UnitSeconds(Cascade[i])
  {
    CountedAtFirstExceeded(seconds, i);
    if FirstExceeded(seconds, Cascade) == i {
      WholeUnits(seconds, UnitSeconds(Cascade[i]));
    }
  }

  /** Unit `i` is reported exactly when it is the first unit exceeded. */
  lemma CountedAtFirstExceeded(seconds: int, i: nat)
    requires i < |Cascade|
    ensures (Describe(seconds).Counted? && Describe(seconds).unit == Cascade[i]) <==> FirstExceeded(seconds, Cascade) == i
    ensures FirstExceeded(seconds, Cascade) == i
      <==> (seconds > UnitSeconds(Cascade[i]) && forall j :: 0 <= j < i ==> seconds <= UnitSeconds(Cascade[j]))
  {
    var k := FirstExceeded(seconds, Cascade);
    if k < |Cascade| {
      CascadeRank(k);
      CascadeRank(i);
    }
  }

  /** Without a unit exceeded, the label is "just now" exactly below ten
      seconds, including times in the future. */
  lemma JustNowIff(seconds: int)
    ensures Describe(seconds) == JustNow <==> seconds < 10
  {
    if seconds <= 60 {
      DescribeUpToMinute(seconds);
    }
  }

  /** Seconds are counted from 10 up to and including 60: a whole minute
      still reads as seconds. */
  lemma SecondsAgoIff(seconds: int)
    ensures Describe(seconds).SecondsAgo? <==> 10 <= seconds <= 60
    ensures Describe(seconds).SecondsAgo? ==> Describe(seconds).seconds == seconds
  {
    if seconds <= 60 {
      DescribeUpToMinute(seconds);
    } else {
      assert seconds > UnitSeconds(Cascade[4]);
    }
  }

  /** The singular is used for a count of one and only then. */
  lemma CountedWording(n: nat, u: TimeUnit)
    ensures Render(Counted(n, u)) == NatToString(n) + " " + UnitWord(u) + (if n == 1 then "" else "s") + " ago"
  {
    assert NatToString(1) == "1";
  }

  /** The number a label opens with reads back as its count. */
  lemma CountReadsBack(a: Ago)
    requires a.Counted? || a.SecondsAgo?
    ensures ParseInt(Render(a)) == Some(if a.Counted? then a.count else a.seconds)
  {
    var n := if a.Counted? then a.count else a.seconds;
    var digits := NatToString(n);
    var rest := if a.Counted? then " " + UnitWord(a.unit) + (if n == 1 then "" else "s") + " ago" else " seconds ago";
    assert Render(a) == digits + rest by {
      if a.Counted? {
        CountedWording(a.count, a.unit);
      }
    }
    assert rest[0] == ' ';
    ReadsBackAfterDigits(digits, rest, Render(a));
    NatToStringRoundTrip(n);
  }

  /** Digits followed by a space read back as the digits' value. */
  lemma ReadsBackAfterDigits(digits: string, rest: string, text: string)
    requires text == digits + rest && digits != [] && AllDigits(digits) && rest != [] && rest[0] == ' '
    ensures ParseInt(text) == Some(DigitsValue(digits) as int)
  {
    assert text[0] == digits[0];
    SignAndBodyOfSigned(false, text);
    assert "" + text == text;
    LeadingDigitsOfDigits(digits, rest);
  }

  /** A whole minute still reads as seconds. */
  lemma WholeMinuteReadsAsSeconds()
    ensures TimeAgo(Some(60000)) == "60 seconds ago"
  {
    assert 60000 / 1000 == 60;
    DescribeUpToMinute(60);
    TwoDigitString(60);
    assert [DigitChar(6), DigitChar(0)] == "60";
    assert Render(SecondsAgo(60)) == "60" + " seconds ago";
  }

  /** One second past a minute reads as a minute. */
  lemma JustOverAMinute()
    ensures TimeAgo(Some(61000)) == "1 minute ago"
  {
    assert 61000 / 1000 == 61;
    DescribeAt(61, 4);
    assert 61 / 60 == 1;
  }

  /** Under ten seconds, and any time in the future, is "just now". */
  lemma JustNowExamples()
    ensures TimeAgo(Some(9999)) == "just now"
    ensures TimeAgo(Some(-5000)) == "just now"
  {
    assert 9999 / 1000 == 9;
    DescribeUpToMinute(9);
    assert -5000 / 1000 == -5;
    DescribeUpToMinute(-5);
  }

  /** A year of 365 days is not more than a year: it reads as 12 months. */
  lemma OneYearReadsAsMonths()
    ensures TimeAgo(Some(31536000000)) == "12 months ago"
  {
    assert 31536000000 / 1000 == 31536000;
    DescribeAt(31536000, 1);
    assert 31536000 / 2592000 == 12;
    TwoDigitString(12);
    assert [DigitChar(1), DigitChar(2)] == "12";
    assert Render(Counted(12, Month)) == "12" + " " + "month" + "s ago";
  }

  // ---------------------------------------------------------------------
  // Posting and deleting
  // ---------------------------------------------------------------------

  /** The chosen file; only its MIME type matters here. */
  datatype MediaFile = MediaFile(mimeType: string)

  /** Only admins and editors are shown the posting form. */
  predicate CanPost(user: User)
  {
    user.role == Admin || user.role == Editor
  }

  /** A MIME type starting "image/" is an image; anything else a video. */
  function MediaTypeOf(mimeType: string): (t: MediaType)
    ensures t == Image <==> StartsWith(mimeType, "image/")
  {
    if StartsWith(mimeType, "image/") then Image else Video
  }

  /** A post is refused when its trimmed content is empty and no file is chosen. */
  predicate IsRejected(content: string, file: Option<MediaFile>)
  {
    Trim(content) == "" && file.None?
  }

  /** The new announcement of handlePost: id "a" followed by the clock reading
      in milliseconds, the author's details, the content as typed and the
      clock reading as an ISO timestamp; the media is attached when both a
      file and its (non-empty) preview URL are present. */
  function NewAnnouncement(user: User, content: string, file: Option<MediaFile>, preview: Option<string>, nowMs: nat, nowIso: string): (a: Announcement)
    ensures a.mediaUrl.Some? <==> file.Some? && preview.Some? && preview.value != ""
    ensures a.mediaUrl.Some? ==> a.mediaUrl == preview && a.mediaType == Some(MediaTypeOf(file.value.mimeType))
    ensures a.mediaUrl.None? ==> a.mediaType.None?
  {
    var withMedia := file.Some? && preview.Some? && preview.value != "";
    Announcement(
      "a" + NatToString(nowMs), user.userId, user.name, user.avatarUrl, content,
      if withMedia then preview else None,
      if withMedia then Some(MediaTypeOf(file.value.mimeType)) else None,
      nowIso)
  }

  /** handlePost's effect on the list: a refused post leaves it as it is,
      any other is put first. */
  function WithPost(posts: seq<Announcement>, user: User, content: string, file: Option<MediaFile>, preview: Option<string>, nowMs: nat, nowIso: string): (r: seq<Announcement>)
    ensures IsRejected(content, file) ==> r == posts
    ensures !IsRejected(content, file) ==> |r| == |posts| + 1 && r[1..] == posts
    ensures !IsRejected(content, file) ==>
      r[0].authorId == user.userId && r[0].authorName == user.name && r[0].content == content
      && r[0].timestamp == nowIso && r[0].announcementId == "a" + NatToString(nowMs)
      && r[0].authorAvatarUrl == user.avatarUrl
  {
    if IsRejected(content, file) then posts
    else [NewAnnouncement(user, content, file, preview, nowMs, nowIso)] + posts
  }

  /** Posting changes nothing exactly when the content is blank and there is
      no file. */
  lemma PostRejectedIff(posts: seq<Announcement>, user: User, content: string, file: Option<MediaFile>, preview: Option<string>, nowMs: nat, nowIso: string)
    ensures WithPost(posts, user, content, file, preview, nowMs, nowIso) == posts <==> IsBlank(content) && file.None?
  {
    TrimEmptyIffBlank(content);
    if !IsRejected(content, file) {
      assert |WithPost(posts, user, content, file, preview, nowMs, nowIso)| != |posts|;
    }
  }

  /** handleDeletePost's effect on the list: every post with the id goes,
      every other stays, in order. */
  function WithoutAnnouncement(posts: seq<Announcement>, announcementId: string): (r: seq<Announcement>)
    ensures forall a :: a in r <==> a in posts && a.announcementId != announcementId
    ensures forall a :: a in posts && a.announcementId != announcementId ==> multiset(r)[a] == multiset(posts)[a]
  {
    FilterCount(OtherThan(announcementId), posts);
    Filter(OtherThan(announcementId), posts)
  }

  function OtherThan(announcementId: string): Announcement -> bool
  {
    (a: Announcement) => a.announcementId != announcementId
  }

  /** Deleting keeps the order of the posts that stay: deleting from two runs
      of posts one after the other deletes from each run in place. */
  lemma WithoutAnnouncementKeepsOrder(a: seq<Announcement>, b: seq<Announcement>, announcementId: string)
    ensures WithoutAnnouncement(a + b, announcementId)
      == WithoutAnnouncement(a, announcementId) + WithoutAnnouncement(b, announcementId)
  {
    FilterAppend(OtherThan(announcementId), a, b);
  }

  /** Deleting a fresh post again restores the list it was posted to. */
  lemma DeleteUndoesPost(posts: seq<Announcement>, user: User, content: string, file: Option<MediaFile>, preview: Option<string>, nowMs: nat, nowIso: string)
    requires forall i :: 0 <= i < |posts| ==> posts[i].announcementId != "a" + NatToString(nowMs)
    ensures WithoutAnnouncement(WithPost(posts, user, content, file, preview, nowMs, nowIso), "a" + NatToString(nowMs)) == posts
  {
    var id := "a" + NatToString(nowMs);
    var p := OtherThan(id);
    FilterKeepsAll(p, posts);
    var r := WithPost(posts, user, content, file, preview, nowMs, nowIso);
    if !IsRejected(content, file) {
      assert r == [r[0]] + posts;
      assert !p(r[0]);
      assert Filter(p, r) == Filter(p, r[1..]);
    }
  }

  /** The delete button: admins may delete any post, anyone else only their own. */
  predicate CanDelete(user: User, a: Announcement)
  {
    user.role == Admin || user.userId == a.authorId
  }

  /** The posts a user is offered to delete: all of them for an admin, and
      for anyone else exactly the posts they wrote, in order. */
  lemma {:induction false} DeletablePosts(user: User, posts: seq<Announcement>)
    ensures user.role == Admin ==> Filter((a: Announcement) => CanDelete(user, a), posts) == posts
    ensures user.role != Admin ==>
      Filter((a: Announcement) => CanDelete(user, a), posts) == Filter((a: Announcement) => a.authorId == user.userId, posts)
    decreases |posts|
  {
    if posts != [] {
      DeletablePosts(user, posts[1..]);
    }
  }

  /** The board's state: the posts, the form (content, chosen file and its
      preview URL) and the post awaiting confirmation of its deletion. */
  class Board {
    var announcements: seq<Announcement>
    var newContent: string
    var newMediaFile: Option<MediaFile>
    var mediaPreview: Option<string>
    var announcementToDelete: Option<Announcement>

    constructor(announcements: seq<Announcement>)
      ensures this.announcements == announcements
      ensures newContent == "" && newMediaFile.None? && mediaPreview.None? && announcementToDelete.None?
    {
      this.announcements := announcements;
      newContent := "";
      newMediaFile := None;
      mediaPreview := None;
      announcementToDelete := None;
    }

    /** handleFileChange: a chosen file replaces the previous one and gets a
        new preview URL; choosing nothing changes nothing. */
    method ChangeFile(file: Option<MediaFile>, objectUrl: string)
      modifies this
      ensures file.Some? ==> newMediaFile == file && mediaPreview == Some(objectUrl)
      ensures file.None? ==> newMediaFile == old(newMediaFile) && mediaPreview == old(mediaPreview)
      ensures announcements == old(announcements) && newContent == old(newContent)
      ensures announcementToDelete == old(announcementToDelete)
    {
      if file.Some? {
        newMediaFile := file;
        mediaPreview := Some(objectUrl);
      }
    }

    /** removeMedia. */
    method RemoveMedia()
      modifies this
      ensures newMediaFile.None? && mediaPreview.None?
      ensures announcements == old(announcements) && newContent == old(newContent)
      ensures announcementToDelete == old(announcementToDelete)
    {
      newMediaFile := None;
      mediaPreview := None;
    }

    /** handlePost by `user` at the clock reading `nowMs` (`nowIso` as text):
        a refused post changes nothing; an accepted one is put first and
        clears the form. */
    method Post(user: User, nowMs: nat, nowIso: string)
      modifies this
      ensures announcements == WithPost(old(announcements), user, old(newContent), old(newMediaFile), old(mediaPreview), nowMs, nowIso)
      ensures IsRejected(old(newContent), old(newMediaFile)) ==>
        newContent == old(newContent) && newMediaFile == old(newMediaFile) && mediaPreview == old(mediaPreview)
      ensures !IsRejected(old(newContent), old(newMediaFile)) ==>
        newContent == "" && newMediaFile.None? && mediaPreview.None?
      ensures announcementToDelete == old(announcementToDelete)
    {
      if IsRejected(newContent, newMediaFile) {
        return;
      }
      announcements := [NewAnnouncement(user, newContent, newMediaFile, mediaPreview, nowMs, nowIso)] + announcements;
      newContent := "";
      newMediaFile := None;
      mediaPreview := None;
    }

    /** The delete button, shown only where the user may delete. */
    method RequestDelete(user: User, a: Announcement)
      requires CanDelete(user, a)
      modifies this
      ensures announcementToDelete == Some(a)
      ensures announcements == old(announcements) && newContent == old(newContent)
      ensures newMediaFile == old(newMediaFile) && mediaPreview == old(mediaPreview)
    {
      announcementToDelete := Some(a);
    }

    /** Closing the confirmation dialog. */
    method CancelDelete()
      modifies this
      ensures announcementToDelete.None?
      ensures announcements == old(announcements) && newContent == old(newContent)
      ensures newMediaFile == old(newMediaFile) && mediaPreview == old(mediaPreview)
    {
      announcementToDelete := None;
    }

    /** handleDeletePost: with a post awaiting deletion, every post with its
        id is removed and the dialog closes; otherwise nothing changes. */
    method ConfirmDelete()
      modifies this
      ensures old(announcementToDelete).None? ==> announcements == old(announcements)
      ensures old(announcementToDelete).Some? ==>
        announcements == WithoutAnnouncement(old(announcements), old(announcementToDelete).value.announcementId)
      ensures announcementToDelete.None?
      ensures newContent == old(newContent) && newMediaFile == old(newMediaFile) && mediaPreview == old(mediaPreview)
    {
      if announcementToDelete.None? {
        return;
      }
      announcements := WithoutAnnouncement(announcements, announcementToDelete.value.announcementId);
      announcementToDelete := None;
    }
  }
}
