/**
 * The advertising conversation of the group bot: a user collects text,
 * media and buttons, gets a preview, picks target groups and posting
 * settings, and posts one ad row per group; existing ads can later be moved
 * or copied to other groups and given a new minute interval.
 *
 * WerbungHandler keeps the session store (`user_data_cache`, one record per
 * user), the conversation state the conversation framework keeps per user,
 * the ad table and the per-user edit context.  Outside effects are
 * parameters: whether the chat is private, the rate limit, the regular
 * expression results, the AI result, the date parse, today's date (as a day
 * number), the active groups, and the outcome of each posting attempt.
 */
module Werbung {
  import opened Wrappers
  import opened PyStr
  import opened WerbungButtons

  // ---------------------------------------------------------------------
  // Conversation states and records
  // ---------------------------------------------------------------------

  /** The conversation states a handler returns; End is the end of the conversation. */
  datatype Step =
    | WaitingInput | Preview | Settings | MinutesInput | StartDateInput | EndDateInput
    | ManualButtonText | ManualButtonUrl | End

  datatype Group = Group(chatId: int, title: string)

  /** The interval kinds, as stored. */
  const Einmalig: string := "einmalig"
  const Stuendlich: string := "stuendlich"
  const Taeglich: string := "taeglich"
  const Woechentlich: string := "woechentlich"

  const DefaultExpandTimer: int := 300
  const MaxButtonLabel: nat := 30
  const MinMinutes: int := 1
  const MaxMinutes: int := 1440
  /** The shortest ad text the edit flow accepts. */
  const MinEditTextLength: int := 10
  /** The stored media types. */
  const PhotoKind: string := "photo"
  const VideoKind: string := "video"

  /** One ad being put together. */
  datatype Session = Session(
    text: string,
    urls: seq<string>,
    mediaIds: seq<string>,
    mediaType: Option<string>,
    expandTimerSeconds: int,
    selectedGroups: seq<int>,
    startDate: Option<int>,
    endDate: Option<int>,
    manualButtons: seq<Button>,
    detectedButtons: seq<Button>,
    tempButtonText: Option<string>,
    pinEnabled: bool,
    deleteOld: bool,
    intervall: Option<string>,
    intervallHours: Option<int>,
    intervallTime: Option<string>,
    intervallDays: Option<seq<int>>,
    result: Option<Draft>,
    availableGroups: seq<Group>)

  /** The session cmd_werbe opens; the expand timer comes from the configuration. */
  function NewSession(expandedAdTtl: int): Session {
    Session("", [], [], None, expandedAdTtl, [], None, None, [], [], None, false, true,
            None, None, None, None, None, [])
  }

  /** A row of the ad table. */
  datatype Ad = Ad(
    userId: int,
    title: string,
    content: string,
    minimizedTitle: string,
    buttons: seq<Button>,
    mediaIds: seq<string>,
    mediaType: Option<string>,
    intervall: string,
    intervallHours: Option<int>,
    intervallTime: Option<string>,
    intervallDays: Option<seq<int>>,
    pinEnabled: bool,
    deleteOld: bool,
    targetChatId: Option<int>,
    expandTimerSeconds: int,
    startDate: Option<int>,
    endDate: Option<int>,
    isActive: bool)

  /** The row confirm_post creates for one target group. */
  function NewAd(userId: int, s: Session, d: Draft, chatId: int, active: bool): Ad {
    Ad(userId, d.title, d.content, d.minimizedTitle, d.buttons, s.mediaIds, s.mediaType,
       s.intervall.GetOr(Einmalig), s.intervallHours, s.intervallTime, s.intervallDays,
       s.pinEnabled, s.deleteOld, Some(chatId), s.expandTimerSeconds, s.startDate, s.endDate, active)
  }

  /** The edit context of one user; a missing key reads as None, empty or false. */
  datatype EditContext = EditContext(
    editingId: Option<int>,
    originalChatId: Option<int>,
    selectedGroupIds: seq<int>,
    availableGroups: seq<Group>,
    waitingForMinutes: bool,
    waitingForText: bool,
    waitingForMedia: bool)

  const EmptyContext: EditContext := EditContext(None, None, [], [], false, false, false)

  // ---------------------------------------------------------------------
  // Small helpers
  // ---------------------------------------------------------------------

  predicate NoDup(s: seq<int>) {
    forall i, j :: 0 <= i < j < |s| ==> s[i] != s[j]
  }

  /** A Python string or None in a test: true when present and non-empty. */
  predicate Truthy(o: Option<string>) {
    o.Some? && o.value != ""
  }

  /** `data.split(':')[i]`, None where Python raises IndexError. */
  function Field(data: string, i: nat): Option<string> {
    var parts := Split(data, ':');
    if i < |parts| then Some(parts[i]) else None
  }

  /** `int(data.split(':')[i])`, None where Python raises. */
  function IntField(data: string, i: nat): Option<int> {
    match Field(data, i)
    case None => None
    case Some(f) => ParseInt(f)
  }

  /** The conversation map after a handler returned `next`. */
  function Advance(conv: map<int, Step>, uid: int, next: Step): (r: map<int, Step>)
    ensures next == End ==> uid !in r
    ensures next != End ==> uid in r && r[uid] == next
    ensures forall u :: u != uid ==> (u in r <==> u in conv) && (u in r ==> r[u] == conv[u])
  {
    if next == End then conv - {uid} else conv[uid := next]
  }

  // ---------------------------------------------------------------------
  // Removing from and toggling a selection list
  // ---------------------------------------------------------------------

  /** `list.remove(x)` when `x` is present: drops its first occurrence. */
  function RemoveFirst(s: seq<int>, x: int): seq<int> {
    if s == [] then [] else if s[0] == x then s[1..] else [s[0]] + RemoveFirst(s[1..], x)
  }

  lemma {:induction false} RemoveFirstShape(s: seq<int>, x: int)
    requires NoDup(s)
    ensures NoDup(RemoveFirst(s, x))
    ensures x !in RemoveFirst(s, x)
    ensures forall y :: y != x ==> (y in RemoveFirst(s, x) <==> y in s)
    ensures |RemoveFirst(s, x)| == if x in s then |s| - 1 else |s|
  {
    if s != [] {
      assert NoDup(s[1..]) by {
        forall i, j | 0 <= i < j < |s[1..]|
          ensures s[1..][i] != s[1..][j]
        {
          assert s[1..][i] == s[i + 1] && s[1..][j] == s[j + 1];
        }
      }
      if s[0] == x {
        assert forall k :: 0 <= k < |s[1..]| ==> s[1..][k] == s[k + 1] && s[k + 1] != s[0];
        assert forall y :: y in s <==> y == s[0] || y in s[1..];
      } else {
        RemoveFirstShape(s[1..], x);
        var r := [s[0]] + RemoveFirst(s[1..], x);
        assert s[0] !in s[1..] by {
          assert forall k :: 0 <= k < |s[1..]| ==> s[1..][k] == s[k + 1] && s[k + 1] != s[0];
        }
        assert forall y :: y in s <==> y == s[0] || y in s[1..];
        assert forall y :: y in r <==> y == s[0] || y in RemoveFirst(s[1..], x);
        forall i, j | 0 <= i < j < |r|
          ensures r[i] != r[j]
        {
          if i == 0 {
            assert r[j] in RemoveFirst(s[1..], x);
          } else {
            assert r[i] == RemoveFirst(s[1..], x)[i - 1] && r[j] == RemoveFirst(s[1..], x)[j - 1];
          }
        }
      }
    }
  }

  lemma {:induction false} RemoveFirstLast(s: seq<int>, x: int)
    requires x !in s
    ensures RemoveFirst(s + [x], x) == s
  {
    if s == [] {
      assert [] + [x] == [x];
    } else {
      assert (s + [x])[1..] == s[1..] + [x];
      RemoveFirstLast(s[1..], x);
      assert [s[0]] + s[1..] == s;
    }
  }

  /** The selection toggle of select_group and of the edit flow. */
  function Toggle(s: seq<int>, x: int): seq<int> {
    if x in s then RemoveFirst(s, x) else s + [x]
  }

  /** A toggle flips exactly the chosen group and keeps the list free of repeats. */
  lemma ToggleShape(s: seq<int>, x: int)
    requires NoDup(s)
    ensures NoDup(Toggle(s, x))
    ensures x in Toggle(s, x) <==> x !in s
    ensures forall y :: y != x ==> (y in Toggle(s, x) <==> y in s)
  {
    if x in s {
      RemoveFirstShape(s, x);
    } else {
      var t := s + [x];
      forall i, j | 0 <= i < j < |t|
        ensures t[i] != t[j]
      {
        if j == |s| {
          assert t[i] == s[i];
        } else {
          assert t[i] == s[i] && t[j] == s[j];
        }
      }
    }
  }

  /** Toggling twice gives back the same selection; a group not yet chosen comes back in place. */
  lemma ToggleTwice(s: seq<int>, x: int)
    requires NoDup(s)
    ensures forall y :: y in Toggle(Toggle(s, x), x) <==> y in s
    ensures x !in s ==> Toggle(Toggle(s, x), x) == s
  {
    ToggleShape(s, x);
    ToggleShape(Toggle(s, x), x);
    if x !in s {
      RemoveFirstLast(s, x);
    }
  }

  // ---------------------------------------------------------------------
  // Session steps
  // ---------------------------------------------------------------------

  /** A sent attachment. */
  datatype Media = Photo(fileId: string) | Video(fileId: string) | Document(fileId: string)

  /** An incoming message as handle_input reads it. */
  datatype Incoming = Incoming(text: Option<string>, caption: Option<string>, media: Option<Media>)

  /** The main-menu tile text that handle_input ignores. */
  predicate IsTileText(m: Incoming) {
    Truthy(m.text) && StartsWith(m.text.value, "📢 Werbung")
  }

  /** The text after handle_input: the message text and the caption, each followed by a newline. */
  function AddedText(t: string, m: Incoming): string {
    var t1 := if Truthy(m.text) then t + m.text.value + "\n" else t;
    if Truthy(m.caption) then t1 + m.caption.value + "\n" else t1
  }

  /** The links after handle_input: those found in the text, then those found in the caption. */
  function AddedUrls(u: seq<string>, m: Incoming, textUrls: seq<string>, captionUrls: seq<string>): seq<string> {
    var u1 := if Truthy(m.text) then u + textUrls else u;
    if Truthy(m.caption) then u1 + captionUrls else u1
  }

  /** The media after handle_input: the attachment's file id, if any. */
  function AddedMedia(ids: seq<string>, m: Incoming): seq<string> {
    if m.media.Some? then ids + [m.media.value.fileId] else ids
  }

  function MediaKind(kind: Option<string>, m: Incoming): Option<string> {
    match m.media
    case None => kind
    case Some(Photo(_)) => Some(PhotoKind)
    case Some(Video(_)) => Some(VideoKind)
    case Some(Document(_)) => Some("document")
  }

  /**
   * handle_input's additions: the text and the caption, each followed by a
   * newline, their links, and the attachment.  `textUrls` and `captionUrls`
   * are the link searches over the text and over the caption.
   */
  function AddInput(s: Session, m: Incoming, textUrls: seq<string>, captionUrls: seq<string>): Session {
    s.(text := AddedText(s.text, m), urls := AddedUrls(s.urls, m, textUrls, captionUrls),
       mediaIds := AddedMedia(s.mediaIds, m), mediaType := MediaKind(s.mediaType, m))
  }

  /** Input only ever adds: earlier text, links and media stay in front, and nothing else changes. */
  lemma AddInputExtends(s: Session, m: Incoming, textUrls: seq<string>, captionUrls: seq<string>)
    ensures var r := AddInput(s, m, textUrls, captionUrls);
      && StartsWith(r.text, s.text) && r.urls[..|s.urls|] == s.urls && |r.urls| >= |s.urls|
      && r.mediaIds[..|s.mediaIds|] == s.mediaIds && |r.mediaIds| >= |s.mediaIds|
      && r.(text := s.text, urls := s.urls, mediaIds := s.mediaIds, mediaType := s.mediaType) == s
    ensures var r := AddInput(s, m, textUrls, captionUrls);
      !Truthy(m.text) && !Truthy(m.caption) && m.media.None? ==> r == s
    ensures var r := AddInput(s, m, textUrls, captionUrls);
      Truthy(m.text) && !Truthy(m.caption) ==> r.text == s.text + m.text.value + "\n"
  {
    var t := AddedText(s.text, m);
    assert t[..|s.text|] == s.text;
    var u := AddedUrls(s.urls, m, textUrls, captionUrls);
    assert u[..|s.urls|] == s.urls;
    var ids := AddedMedia(s.mediaIds, m);
    assert ids[..|s.mediaIds|] == s.mediaIds;
  }

  /**
   * The session after handle_input accepted a message: buttons are detected
   * once the accumulated text is long enough.  `matches` are the platform
   * matches of the accumulated text, found by the link search that is not
   * part of this model, so the detected buttons come from everything the
   * user has sent so far and not from this message alone.
   */
  function InputStep(s: Session, m: Incoming, textUrls: seq<string>, captionUrls: seq<string>,
                     matches: seq<PlatformMatch>, minTextLength: int): Session
  {
    var s1 := AddInput(s, m, textUrls, captionUrls);
    if |Strip(s1.text)| < minTextLength then s1 else s1.(detectedButtons := SmartButtons(matches))
  }

  /** handle_input's update of one session; `matches` are those of the accumulated text. */
  method CollectInput(s: Session, m: Incoming, textUrls: seq<string>, captionUrls: seq<string>,
                      matches: seq<PlatformMatch>, minTextLength: int) returns (r: Session)
    ensures r == InputStep(s, m, textUrls, captionUrls, matches, minTextLength)
  {
    r := AddInput(s, m, textUrls, captionUrls);
    if |Strip(r.text)| >= minTextLength {
      var detected := ExtractSmartButtons(matches);
      r := r.(detectedButtons := detected);
    }
  }

  /** Input leaves the parts the invariant is about alone. */
  lemma InputStepOk(s: Session, m: Incoming, textUrls: seq<string>, captionUrls: seq<string>,
                    matches: seq<PlatformMatch>, minTextLength: int)
    requires SessionOk(s)
    ensures SessionOk(InputStep(s, m, textUrls, captionUrls, matches, minTextLength))
  {
    var r := AddInput(s, m, textUrls, captionUrls);
    AddInputExtends(s, m, textUrls, captionUrls);
    assert r.selectedGroups == s.selectedGroups && r.manualButtons == s.manualButtons;
    assert r.tempButtonText == s.tempButtonText && r.intervallHours == s.intervallHours;
  }

  /** A manual button label is accepted when it has at most 30 characters after stripping. */
  predicate LabelOk(text: string) {
    |text| <= MaxButtonLabel
  }

  /** The link test of handle_manual_button_url. */
  predicate AcceptedLink(url: string) {
    StartsWith(url, "http://") || StartsWith(url, "https://") || StartsWith(url, "viber://")
  }

  /** Every stored manual button passed both checks. */
  predicate ManualButtonOk(b: Button) {
    LabelOk(b.text) && AcceptedLink(b.url) && b.platform == "manual"
  }

  /** handle_start_date_input: "leer" clears, an unparsable or past date is refused, and returns the next state. */
  function StartDateStep(s: Session, text: string, parsed: Option<int>, today: int): (r: (Session, Step))
    ensures r.1 == Settings || r.1 == StartDateInput
    ensures r.1 == StartDateInput ==> r.0 == s
    ensures r.0.(startDate := s.startDate) == s
    ensures r.1 == Settings && r.0.startDate.Some? ==> parsed == r.0.startDate && r.0.startDate.value >= today
    ensures r.1 == Settings && r.0.startDate.None? ==> Lower(Strip(text)) == "leer"
  {
    var ds := Lower(Strip(text));
    if ds == "leer" then (s.(startDate := None), Settings)
    else if parsed.None? then (s, StartDateInput)
    else if parsed.value < today then (s, StartDateInput)
    else (s.(startDate := parsed), Settings)
  }

  /**
   * handle_end_date_input: like the start date, and an end date not after
   * the start date (when one is set) is refused as well.
   */
  function EndDateStep(s: Session, text: string, parsed: Option<int>, today: int): (r: (Session, Step))
    ensures r.1 == Settings || r.1 == EndDateInput
    ensures r.1 == EndDateInput ==> r.0 == s
    ensures r.0.(endDate := s.endDate) == s
    ensures r.1 == Settings && r.0.endDate.Some? ==>
      && parsed == r.0.endDate && r.0.endDate.value >= today
      && (s.startDate.Some? ==> r.0.endDate.value > s.startDate.value)
    ensures r.1 == Settings && r.0.endDate.None? ==> Lower(Strip(text)) == "leer"
  {
    var ds := Lower(Strip(text));
    if ds == "leer" then (s.(endDate := None), Settings)
    else if parsed.None? then (s, EndDateInput)
    else if s.startDate.Some? && parsed.value <= s.startDate.value then (s, EndDateInput)
    else if parsed.value < today then (s, EndDateInput)
    else (s.(endDate := parsed), Settings)
  }

  /**
   * The start date is not checked against an end date already set: an end
   * date entered first and a later start date entered afterwards are both
   * accepted, leaving an ad that ends before it starts.
   */
  lemma StartDateMayPassEndDate(s: Session, endText: string, startText: string, today: int, endDay: int, startDay: int)
    requires s.startDate.None?
    requires Lower(Strip(endText)) != "leer" && Lower(Strip(startText)) != "leer"
    requires today <= endDay < startDay
    ensures var e := EndDateStep(s, endText, Some(endDay), today);
      var st := StartDateStep(e.0, startText, Some(startDay), today);
      && e.1 == Settings && st.1 == Settings
      && st.0.endDate == Some(endDay) && st.0.startDate == Some(startDay)
      && st.0.startDate.value > st.0.endDate.value
  {
  }

  /** handle_minutes_input: a whole number from 1 to 1440 is stored, anything else asks again. */
  function MinutesStep(s: Session, text: string): (r: (Session, Step))
    ensures r.1 == Settings <==> ParseInt(Strip(text)).Some? && MinMinutes <= ParseInt(Strip(text)).value <= MaxMinutes
    ensures r.1 == Settings ==> r.0 == s.(intervallHours := ParseInt(Strip(text)))
    ensures r.1 != Settings ==> r.1 == MinutesInput && r.0 == s
  {
    match ParseInt(Strip(text))
    case None => (s, MinutesInput)
    case Some(m) =>
      if m < MinMinutes || m > MaxMinutes then (s, MinutesInput)
      else (s.(intervallHours := Some(m)), Settings)
  }

  /**
   * set_interval: stores the chosen kind; hourly asks for the minutes,
   * daily runs at 12:00, weekly on days 1, 3 and 5 at 12:00.  None is an
   * IndexError, which leaves everything as it was.
   */
  function IntervalStep(s: Session, data: string): (r: Option<(Session, Step)>)
    ensures r.Some? <==> Field(data, 1).Some?
    ensures r.Some? ==> r.value.0.intervall == Field(data, 1)
    ensures r.Some? ==> (r.value.1 == MinutesInput <==> Field(data, 1) == Some(Stuendlich))
    ensures r.Some? && r.value.1 != MinutesInput ==> r.value.1 == Settings
    ensures r.Some? && Field(data, 1) == Some(Woechentlich) ==>
      r.value.0.intervallDays == Some([1, 3, 5]) && r.value.0.intervallTime == Some("12:00")
  {
    match Field(data, 1)
    case None => None
    case Some(iv) =>
      var s1 := s.(intervall := Some(iv));
      if iv == Stuendlich then Some((s1, MinutesInput))
      else if iv == Taeglich then Some((s1.(intervallTime := Some("12:00")), Settings))
      else if iv == Woechentlich then Some((s1.(intervallDays := Some([1, 3, 5]), intervallTime := Some("12:00")), Settings))
      else Some((s1, Settings))
  }

  // ---------------------------------------------------------------------
  // Posting: outcomes, failure labels and the report
  // ---------------------------------------------------------------------

  /** Where an exception in the per-group step came from. */
  datatype Stage = AtCreate | AtActivate | AtLog

  datatype Failure = Forbidden | BadRequest | NetworkError | OtherError(message: string)

  /** What happened for one target group. */
  datatype Attempt = Posted | NotPosted | Raised(stage: Stage, failure: Failure)

  /** Whether the ad row was created for this attempt, and whether it was activated. */
  predicate RowCreated(a: Attempt) {
    !(a.Raised? && a.stage == AtCreate)
  }

  predicate RowActivated(a: Attempt) {
    RowCreated(a) && !(a.Raised? && a.stage == AtActivate)
  }

  /** The title of the first known group with this id, else "Chat <id>". */
  function GroupName(groups: seq<Group>, chatId: int): string {
    if groups == [] then "Chat " + IntToString(chatId)
    else if groups[0].chatId == chatId then groups[0].title
    else GroupName(groups[1..], chatId)
  }

  /** The entry of the failure list for one group. */
  function FailureLabel(name: string, a: Attempt): string {
    match a
    case Posted => name
    case NotPosted => name + " (Posting fehlgeschlagen)"
    case Raised(_, Forbidden) => name + " (Bot entfernt)"
    case Raised(_, BadRequest) => name + " (Keine Berechtigung)"
    case Raised(_, NetworkError) => name + " (Netzwerkfehler)"
    case Raised(_, OtherError(msg)) => name + " (" + SliceTo(msg, 50) + ")"
  }

  /** How many of the first `n` attempts posted. */
  function Posts(attempts: seq<Attempt>, n: nat): (p: nat)
    requires n <= |attempts|
    ensures p <= n
  {
    if n == 0 then 0 else Posts(attempts, n - 1) + (if attempts[n - 1] == Posted then 1 else 0)
  }

  /** The success count and the failure list of confirm_post after the first `n` groups. */
  function Tally(selected: seq<int>, attempts: seq<Attempt>, groups: seq<Group>, n: nat): (r: (nat, seq<string>))
    requires |selected| == |attempts| && n <= |selected|
    ensures r.0 == Posts(attempts, n)
    ensures r.0 + |r.1| == n
  {
    if n == 0 then (0, [])
    else TallyAdd(Tally(selected, attempts, groups, n - 1), selected[n - 1], attempts[n - 1], groups)
  }

  /** One group's contribution: a success, or its failure entry. */
  function TallyAdd(prev: (nat, seq<string>), chatId: int, a: Attempt, groups: seq<Group>): (r: (nat, seq<string>))
    ensures a == Posted ==> r == (prev.0 + 1, prev.1)
    ensures a != Posted ==> r.0 == prev.0 && |r.1| == |prev.1| + 1
  {
    if a == Posted then (prev.0 + 1, prev.1)
    else (prev.0, prev.1 + [FailureLabel(GroupName(groups, chatId), a)])
  }

  /** The rows confirm_post creates for the first `n` groups, in order. */
  function PostedRows(uid: int, s: Session, d: Draft, groups: seq<int>, attempts: seq<Attempt>, n: nat): (r: seq<Ad>)
    requires |groups| == |attempts| && n <= |groups|
    ensures |r| <= n
  {
    if n == 0 then []
    else
      PostedRows(uid, s, d, groups, attempts, n - 1)
        + (if RowCreated(attempts[n - 1]) then [NewAd(uid, s, d, groups[n - 1], RowActivated(attempts[n - 1]))] else [])
  }

  /** Rows of one user, each aimed at one of `groups`, with the given minute interval. */
  predicate RowsFor(rows: seq<Ad>, uid: int, groups: seq<int>, hours: Option<int>) {
    forall j :: 0 <= j < |rows| ==>
      rows[j].userId == uid && rows[j].targetChatId.Some? && rows[j].targetChatId.value in groups
      && rows[j].intervallHours == hours
  }

  /** Every created row belongs to the poster and targets one of the chosen groups. */
  lemma {:induction false} PostedRowsShape(uid: int, s: Session, d: Draft, groups: seq<int>, attempts: seq<Attempt>, n: nat)
    requires |groups| == |attempts| && n <= |groups|
    ensures RowsFor(PostedRows(uid, s, d, groups, attempts, n), uid, groups, s.intervallHours)
  {
    if n > 0 {
      PostedRowsShape(uid, s, d, groups, attempts, n - 1);
      var front := PostedRows(uid, s, d, groups, attempts, n - 1);
      var r := PostedRows(uid, s, d, groups, attempts, n);
      forall j | 0 <= j < |r|
        ensures r[j].userId == uid && r[j].targetChatId.Some? && r[j].targetChatId.value in groups
          && r[j].intervallHours == s.intervallHours
      {
        if j < |front| {
          assert r[j] == front[j];
        } else {
          assert r[j] == NewAd(uid, s, d, groups[n - 1], RowActivated(attempts[n - 1]));
        }
      }
    }
  }

  lemma {:induction false} PostsAll(attempts: seq<Attempt>, n: nat)
    requires n <= |attempts|
    ensures Posts(attempts, n) == n <==> forall k :: 0 <= k < n ==> attempts[k] == Posted
    ensures Posts(attempts, n) == 0 <==> forall k :: 0 <= k < n ==> attempts[k] != Posted
  {
    if n > 0 {
      PostsAll(attempts, n - 1);
    }
  }

  /** The three reports of confirm_post. */
  datatype Report = AllPosted(count: nat) | PartlyPosted(count: nat, failed: seq<string>) | NonePosted(failed: seq<string>)

  function ReportOf(success: nat, failed: seq<string>, total: nat): Report {
    if success == total then AllPosted(success)
    else if success > 0 then PartlyPosted(success, failed)
    else NonePosted(failed)
  }

  /**
   * The report says "all posted" exactly when every group was posted, and
   * "none posted" exactly when none was; otherwise it lists the failures.
   */
  lemma ReportClassification(selected: seq<int>, attempts: seq<Attempt>, groups: seq<Group>)
    requires |selected| == |attempts| > 0
    ensures var t := Tally(selected, attempts, groups, |selected|); var rep := ReportOf(t.0, t.1, |selected|);
      && (rep.AllPosted? <==> forall k :: 0 <= k < |attempts| ==> attempts[k] == Posted)
      && (rep.NonePosted? <==> forall k :: 0 <= k < |attempts| ==> attempts[k] != Posted)
      && (rep.AllPosted? ==> t.1 == [])
      && (rep.PartlyPosted? ==> |rep.failed| == |selected| - rep.count > 0)
  {
    PostsAll(attempts, |attempts|);
  }

  // ---------------------------------------------------------------------
  // Edit flow: routing
  // ---------------------------------------------------------------------

  datatype Route = ToMinutes | ToText | ToMedia | Ignored

  /** The private-message router: minutes first, then text, then media. */
  function RouteFor(c: EditContext): (r: Route)
    ensures r == ToMinutes <==> c.waitingForMinutes
    ensures r == ToText <==> !c.waitingForMinutes && c.waitingForText
    ensures r == ToMedia <==> !c.waitingForMinutes && !c.waitingForText && c.waitingForMedia
  {
    if c.waitingForMinutes then ToMinutes
    else if c.waitingForText then ToText
    else if c.waitingForMedia then ToMedia
    else Ignored
  }

  /** `not werbung_id or original_chat_id is None`. */
  predicate EditExpired(c: EditContext) {
    c.editingId.None? || c.editingId.value == 0 || c.originalChatId.None?
  }

  /** What handle_wverwalten_groups_confirm did. */
  datatype GroupsOutcome = SessionExpired | NoneChosen | NotOwner | Moved(chatId: int) | Copied(count: nat)

  /** A copy of an ad for another group, activated. */
  function CopyFor(ad: Ad, chatId: int): Ad {
    ad.(targetChatId := Some(chatId), isActive := true)
  }

  /** The copies a multi-group confirmation makes, in order: one per chosen group other than the current one. */
  function Copies(ad: Ad, selected: seq<int>, original: int): (r: seq<Ad>)
    ensures |r| <= |selected|
  {
    if selected == [] then []
    else
      var n := |selected| - 1;
      Copies(ad, selected[..n], original) + (if selected[n] == original then [] else [CopyFor(ad, selected[n])])
  }

  /** Each row is `ad` moved to one of `selected` other than `original`. */
  predicate CopiesOf(rows: seq<Ad>, ad: Ad, selected: seq<int>, original: int) {
    forall j :: 0 <= j < |rows| ==>
      && rows[j].targetChatId.Some? && rows[j].targetChatId.value in selected && rows[j].targetChatId.value != original
      && rows[j] == CopyFor(ad, rows[j].targetChatId.value)
  }

  /**
   * Every copy is the ad moved to a chosen group other than the current
   * one, and without repeats the current group is skipped at most once.
   */
  lemma {:induction false} CopiesShape(ad: Ad, selected: seq<int>, original: int)
    ensures CopiesOf(Copies(ad, selected, original), ad, selected, original)
    ensures NoDup(selected) ==>
      |Copies(ad, selected, original)| == if original in selected then |selected| - 1 else |selected|
  {
    if selected != [] {
      var n := |selected| - 1;
      var front := selected[..n];
      CopiesShape(ad, front, original);
      assert forall y :: y in selected <==> y in front || y == selected[n];
      var prev := Copies(ad, front, original);
      var r := Copies(ad, selected, original);
      forall j | 0 <= j < |r|
        ensures r[j].targetChatId.Some? && r[j].targetChatId.value in selected && r[j].targetChatId.value != original
          && r[j] == CopyFor(ad, r[j].targetChatId.value)
      {
        if j < |prev| {
          assert r[j] == prev[j];
        }
      }
      if NoDup(selected) {
        assert NoDup(front);
        if selected[n] == original {
          assert original !in front;
        }
      }
    }
  }

  // ---------------------------------------------------------------------
  // Invariants
  // ---------------------------------------------------------------------

  /** What the handlers keep true of every session. */
  predicate SessionOk(s: Session) {
    && NoDup(s.selectedGroups)
    && (forall b :: b in s.manualButtons ==> ManualButtonOk(b))
    && (s.tempButtonText.Some? ==> LabelOk(s.tempButtonText.value))
    && (s.intervallHours.Some? ==> MinMinutes <= s.intervallHours.value <= MaxMinutes)
  }

  /** The session data a conversation state relies on. */
  predicate StepReady(step: Step, s: Session) {
    && (step in {Preview, Settings, MinutesInput, StartDateInput, EndDateInput} ==> s.result.Some?)
    && (step == ManualButtonUrl ==> s.tempButtonText.Some?)
  }

  /** A stored minute interval is always in range. */
  predicate AdOk(ad: Ad) {
    ad.intervallHours.Some? ==> MinMinutes <= ad.intervallHours.value <= MaxMinutes
  }

  class WerbungHandler {
    /** user_data_cache: the session of each user. */
    var sessions: map<int, Session>
    /** The conversation state of each user with an open conversation. */
    var conv: map<int, Step>
    /** The ad table, by id; ids are handed out from nextAdId. */
    var ads: map<int, Ad>
    var nextAdId: int
    /** The edit context of each user. */
    var edits: map<int, EditContext>
    /** Configuration: the expand timer of a new session, the minimum text length, the preview emoji. */
    const expandedAdTtl: int
    const minTextLength: int
    const previewEmoji: string

    predicate Valid()
      reads this
    {
      && nextAdId >= 1
      && (forall id :: id in ads ==> 1 <= id < nextAdId && AdOk(ads[id]))
      && (forall u :: u in sessions ==> SessionOk(sessions[u]))
      && (forall u :: u in conv && u in sessions ==> StepReady(conv[u], sessions[u]))
      && (forall u :: u in edits ==> NoDup(edits[u].selectedGroupIds))
    }

    constructor(expandedAdTtl: int, minTextLength: int, previewEmoji: string)
      ensures Valid()
      ensures sessions == map[] && conv == map[] && ads == map[] && edits == map[] && nextAdId == 1
      ensures this.expandedAdTtl == expandedAdTtl && this.minTextLength == minTextLength
      ensures this.previewEmoji == previewEmoji
    {
      sessions := map[];
      conv := map[];
      ads := map[];
      nextAdId := 1;
      edits := map[];
      this.expandedAdTtl := expandedAdTtl;
      this.minTextLength := minTextLength;
      this.previewEmoji := previewEmoji;
    }

    /** Stores a session and the state its handler returned. */
    method Put(uid: int, s: Session, next: Step)
      requires Valid() && SessionOk(s) && StepReady(next, s)
      modifies this
      ensures Valid()
      ensures sessions == old(sessions)[uid := s] && conv == Advance(old(conv), uid, next)
      ensures ads == old(ads) && nextAdId == old(nextAdId) && edits == old(edits)
    {
      sessions := sessions[uid := s];
      conv := Advance(conv, uid, next);
    }

    /** Ends the conversation and drops its session. */
    method EndSession(uid: int)
      requires Valid()
      modifies this
      ensures Valid()
      ensures sessions == old(sessions) - {uid} && conv == Advance(old(conv), uid, End)
      ensures ads == old(ads) && nextAdId == old(nextAdId) && edits == old(edits)
    {
      sessions := sessions - {uid};
      conv := Advance(conv, uid, End);
    }

    /** Records the state a handler returned, its session unchanged. */
    method Go(uid: int, next: Step)
      requires Valid() && (uid in sessions ==> StepReady(next, sessions[uid]))
      modifies this
      ensures Valid()
      ensures conv == Advance(old(conv), uid, next)
      ensures sessions == old(sessions) && ads == old(ads) && nextAdId == old(nextAdId) && edits == old(edits)
    {
      conv := Advance(conv, uid, next);
    }

    /**
     * The ad table holds the rows of `before` unchanged and, after them,
     * `rows` under consecutive ids from `base`.
     */
    ghost predicate Appended(before: map<int, Ad>, base: int, rows: seq<Ad>)
      reads this
    {
      && (forall id :: id in before ==> id < base)
      && nextAdId == base + |rows|
      && (forall id :: id in ads <==> id in before || base <= id < nextAdId)
      && (forall id :: id in before ==> ads[id] == before[id])
      && (forall j :: 0 <= j < |rows| ==> ads[base + j] == rows[j])
    }

    /** WerbungDB.create: stores a row under the next id. */
    method AddAd(row: Ad, ghost before: map<int, Ad>, ghost base: int, ghost rows: seq<Ad>)
      requires Valid() && AdOk(row) && Appended(before, base, rows)
      modifies this
      ensures Valid() && Appended(before, base, rows + [row])
      ensures sessions == old(sessions) && conv == old(conv) && edits == old(edits)
    {
      ads := ads[nextAdId := row];
      nextAdId := nextAdId + 1;
    }

    /** WerbungDB.update of an existing row. */
    method SetAd(id: int, row: Ad)
      requires Valid() && id in ads && AdOk(row)
      modifies this
      ensures Valid()
      ensures ads == old(ads)[id := row]
      ensures nextAdId == old(nextAdId) && sessions == old(sessions) && conv == old(conv) && edits == old(edits)
    {
      ads := ads[id := row];
    }

    /** Stores the edit context of a user. */
    method SetEdit(uid: int, c: EditContext)
      requires Valid() && NoDup(c.selectedGroupIds)
      modifies this
      ensures Valid()
      ensures edits == old(edits)[uid := c]
      ensures ads == old(ads) && nextAdId == old(nextAdId) && sessions == old(sessions) && conv == old(conv)
    {
      edits := edits[uid := c];
    }

    // -------------------------------------------------------------------
    // Creating an ad
    // -------------------------------------------------------------------

    /** cmd_werbe: only in a private chat and within the rate limit; opens a fresh session. */
    method StartWerbe(uid: int, isPrivate: bool, withinRateLimit: bool) returns (next: Step)
      requires Valid() && uid !in conv
      modifies this
      ensures Valid()
      ensures next == (if isPrivate && withinRateLimit then WaitingInput else End)
      ensures next == End ==> sessions == old(sessions)
      ensures next != End ==> sessions == old(sessions)[uid := NewSession(expandedAdTtl)]
      ensures conv == Advance(old(conv), uid, next)
      ensures ads == old(ads) && nextAdId == old(nextAdId) && edits == old(edits)
    {
      if !isPrivate || !withinRateLimit {
        next := End;
      } else {
        sessions := sessions[uid := NewSession(expandedAdTtl)];
        next := WaitingInput;
      }
      conv := Advance(conv, uid, next);
    }

    /** handle_input: collects text, links and media, and detects buttons once the text is long enough. */
    method HandleInput(uid: int, m: Incoming, textUrls: seq<string>, captionUrls: seq<string>,
                       matches: seq<PlatformMatch>) returns (next: Step)
      requires Valid() && uid in conv && conv[uid] == WaitingInput
      modifies this
      ensures Valid()
      ensures IsTileText(m) ==> next == WaitingInput && sessions == old(sessions)
      ensures !IsTileText(m) && uid !in old(sessions) ==> next == End && sessions == old(sessions)
      ensures !IsTileText(m) && uid in old(sessions) ==>
        && next == WaitingInput
        && sessions == old(sessions)[uid := InputStep(old(sessions)[uid], m, textUrls, captionUrls, matches, minTextLength)]
      ensures conv == Advance(old(conv), uid, next)
      ensures ads == old(ads) && nextAdId == old(nextAdId) && edits == old(edits)
    {
      if IsTileText(m) {
        next := WaitingInput;
        Go(uid, next);
      } else if uid !in sessions {
        next := End;
        Go(uid, next);
      } else {
        var s := CollectInput(sessions[uid], m, textUrls, captionUrls, matches, minTextLength);
        InputStepOk(sessions[uid], m, textUrls, captionUrls, matches, minTextLength);
        next := WaitingInput;
        Put(uid, s, next);
      }
    }

    /** add_manual_button: asks for the label. */
    method AddManualButton(uid: int) returns (next: Step)
      requires Valid() && uid in conv && conv[uid] == WaitingInput
      modifies this
      ensures Valid()
      ensures next == (if uid in sessions then ManualButtonText else End)
      ensures conv == Advance(old(conv), uid, next)
      ensures sessions == old(sessions) && ads == old(ads) && nextAdId == old(nextAdId) && edits == old(edits)
    {
      next := if uid in sessions then ManualButtonText else End;
      conv := Advance(conv, uid, next);
    }

    /** handle_manual_button_text: a stripped label of at most 30 characters is kept for the link step. */
    method HandleManualButtonText(uid: int, text: string) returns (next: Step)
      requires Valid() && uid in conv && conv[uid] == ManualButtonText
      modifies this
      ensures Valid()
      ensures uid !in old(sessions) ==> next == End && sessions == old(sessions)
      ensures uid in old(sessions) && !LabelOk(Strip(text)) ==> next == ManualButtonText && sessions == old(sessions)
      ensures uid in old(sessions) && LabelOk(Strip(text)) ==>
        && next == ManualButtonUrl
        && sessions == old(sessions)[uid := old(sessions)[uid].(tempButtonText := Some(Strip(text)))]
      ensures conv == Advance(old(conv), uid, next)
      ensures ads == old(ads) && nextAdId == old(nextAdId) && edits == old(edits)
    {
      if uid !in sessions {
        next := End;
        Go(uid, next);
      } else {
        var buttonText := Strip(text);
        if !LabelOk(buttonText) {
          next := ManualButtonText;
          Go(uid, next);
        } else {
          next := ManualButtonUrl;
          Put(uid, sessions[uid].(tempButtonText := Some(buttonText)), next);
        }
      }
    }

    /** handle_manual_button_url: a link with an accepted scheme completes the manual button. */
    method HandleManualButtonUrl(uid: int, text: string) returns (next: Step)
      requires Valid() && uid in conv && conv[uid] == ManualButtonUrl
      modifies this
      ensures Valid()
      ensures uid !in old(sessions) ==> next == End && sessions == old(sessions)
      ensures uid in old(sessions) && !AcceptedLink(Strip(text)) ==> next == ManualButtonUrl && sessions == old(sessions)
      ensures uid in old(sessions) && AcceptedLink(Strip(text)) ==>
        var s := old(sessions)[uid];
        && s.tempButtonText.Some?
        && next == WaitingInput
        && sessions == old(sessions)[uid := s.(manualButtons := s.manualButtons + [Button(s.tempButtonText.value, Strip(text), "manual")],
                                               tempButtonText := None)]
      ensures conv == Advance(old(conv), uid, next)
      ensures ads == old(ads) && nextAdId == old(nextAdId) && edits == old(edits)
    {
      if uid !in sessions {
        next := End;
        Go(uid, next);
      } else {
        var url := Strip(text);
        if !AcceptedLink(url) {
          next := ManualButtonUrl;
          Go(uid, next);
        } else {
          var s := sessions[uid];
          var b := Button(s.tempButtonText.value, url, "manual");
          next := WaitingInput;
          Put(uid, s.(manualButtons := s.manualButtons + [b], tempButtonText := None), next);
        }
      }
    }

    /** show_preview's caption for a draft. */
    method PreviewCaption(d: Draft) returns (caption: string)
      ensures caption == Caption(PreviewPrefix(previewEmoji), PreviewText(d))
    {
      var text := BuildPreviewText(d);
      caption := Caption(PreviewPrefix(previewEmoji), text);
    }

    /** skip_ai: the stripped text becomes the content under the title "Werbung", with every collected button. */
    method SkipAi(uid: int) returns (next: Step, preview: Option<string>)
      requires Valid() && uid in conv && conv[uid] == WaitingInput
      modifies this
      ensures Valid()
      ensures uid !in old(sessions) ==> next == End && preview == None && sessions == old(sessions)
      ensures uid in old(sessions) ==>
        var s := old(sessions)[uid];
        var d := Draft("Werbung", Strip(s.text), MinimizedTitle(Strip(s.text)), s.detectedButtons + s.manualButtons);
        && next == Preview
        && sessions == old(sessions)[uid := s.(result := Some(d))]
        && preview == Some(Caption(PreviewPrefix(previewEmoji), PreviewText(d)))
      ensures conv == Advance(old(conv), uid, next)
      ensures ads == old(ads) && nextAdId == old(nextAdId) && edits == old(edits)
    {
      if uid !in sessions {
        next := End;
        preview := None;
        Go(uid, next);
      } else {
        var s := sessions[uid];
        var original := Strip(s.text);
        var d := Draft("Werbung", original, MinimizedTitle(original), s.detectedButtons + s.manualButtons);
        next := Preview;
        Put(uid, s.(result := Some(d)), next);
        var caption := PreviewCaption(d);
        preview := Some(caption);
      }
    }

    /**
     * create_werbung: `generated` is the AI result, None when it failed
     * (the conversation ends and the session stays); the generated buttons
     * are merged behind the detected and manual ones.
     */
    method CreateWerbung(uid: int, generated: Option<Draft>) returns (next: Step, preview: Option<string>)
      requires Valid() && uid in conv && conv[uid] == WaitingInput
      modifies this
      ensures Valid()
      ensures uid !in old(sessions) || generated.None? ==> next == End && preview == None && sessions == old(sessions)
      ensures uid in old(sessions) && generated.Some? ==>
        var s := old(sessions)[uid];
        var d := generated.value.(buttons := Merge(s.detectedButtons + s.manualButtons, generated.value.buttons));
        && next == Preview
        && sessions == old(sessions)[uid := s.(result := Some(d))]
        && preview == Some(Caption(PreviewPrefix(previewEmoji), PreviewText(d)))
      ensures conv == Advance(old(conv), uid, next)
      ensures ads == old(ads) && nextAdId == old(nextAdId) && edits == old(edits)
    {
      if uid !in sessions || generated.None? {
        next := End;
        preview := None;
        Go(uid, next);
      } else {
        var s := sessions[uid];
        var all, _ := MergeButtons(s.detectedButtons, s.manualButtons, generated.value.buttons);
        var d := generated.value.(buttons := all);
        next := Preview;
        Put(uid, s.(result := Some(d)), next);
        var caption := PreviewCaption(d);
        preview := Some(caption);
      }
    }

    /** post_settings: `groups` are the active groups; without any the conversation ends. */
    method PostSettings(uid: int, groups: seq<Group>) returns (next: Step)
      requires Valid() && uid in conv && conv[uid] == Preview
      modifies this
      ensures Valid()
      ensures uid !in old(sessions) || groups == [] ==> next == End && sessions == old(sessions)
      ensures uid in old(sessions) && groups != [] ==>
        next == Settings && sessions == old(sessions)[uid := old(sessions)[uid].(availableGroups := groups)]
      ensures conv == Advance(old(conv), uid, next)
      ensures ads == old(ads) && nextAdId == old(nextAdId) && edits == old(edits)
    {
      if uid !in sessions || groups == [] {
        next := End;
      } else {
        sessions := sessions[uid := sessions[uid].(availableGroups := groups)];
        next := Settings;
      }
      conv := Advance(conv, uid, next);
    }

    /** select_group: toggles the group named in the callback data; unreadable data changes nothing. */
    method SelectGroup(uid: int, data: string) returns (next: Step)
      requires Valid() && uid in conv && conv[uid] == Settings
      modifies this
      ensures Valid()
      ensures uid !in old(sessions) ==> next == End && sessions == old(sessions)
      ensures uid in old(sessions) ==> next == Settings
      ensures uid in old(sessions) && IntField(data, 1).None? ==> sessions == old(sessions)
      ensures uid in old(sessions) && IntField(data, 1).Some? ==>
        var s := old(sessions)[uid];
        sessions == old(sessions)[uid := s.(selectedGroups := Toggle(s.selectedGroups, IntField(data, 1).value))]
      ensures conv == Advance(old(conv), uid, next)
      ensures ads == old(ads) && nextAdId == old(nextAdId) && edits == old(edits)
    {
      if uid !in sessions {
        next := End;
        Go(uid, next);
        return;
      }
      next := Settings;
      var chatId := IntField(data, 1);
      if chatId.Some? {
        var s := sessions[uid];
        ToggleShape(s.selectedGroups, chatId.value);
        Put(uid, s.(selectedGroups := Toggle(s.selectedGroups, chatId.value)), next);
      } else {
        Go(uid, next);
      }
    }

    /**
     * The settings handlers that only redraw the menu or ask for a value:
     * groups_done (which refuses an empty choice), set_timer and
     * timer_back stay in the settings; set_start_date and set_end_date move
     * to the date prompts.
     */
    method ShowSettingsMenu(uid: int, prompt: Step) returns (next: Step)
      requires Valid() && uid in conv && conv[uid] == Settings
      requires prompt in {Settings, StartDateInput, EndDateInput}
      modifies this
      ensures Valid()
      ensures next == (if uid in old(sessions) then prompt else End)
      ensures conv == Advance(old(conv), uid, next)
      ensures sessions == old(sessions) && ads == old(ads) && nextAdId == old(nextAdId) && edits == old(edits)
    {
      next := if uid in sessions then prompt else End;
      conv := Advance(conv, uid, next);
    }

    /** set_interval. */
    method SetInterval(uid: int, data: string) returns (next: Step)
      requires Valid() && uid in conv && conv[uid] == Settings
      modifies this
      ensures Valid()
      ensures uid !in old(sessions) ==> next == End && sessions == old(sessions)
      ensures uid in old(sessions) && IntervalStep(old(sessions)[uid], data).None? ==>
        next == Settings && sessions == old(sessions)
      ensures uid in old(sessions) && IntervalStep(old(sessions)[uid], data).Some? ==>
        var r := IntervalStep(old(sessions)[uid], data).value;
        next == r.1 && sessions == old(sessions)[uid := r.0]
      ensures conv == Advance(old(conv), uid, next)
      ensures ads == old(ads) && nextAdId == old(nextAdId) && edits == old(edits)
    {
      if uid !in sessions {
        next := End;
        Go(uid, next);
      } else {
        var r := IntervalStep(sessions[uid], data);
        if r.None? {
          next := Settings;
          Go(uid, next);
        } else {
          next := r.value.1;
          Put(uid, r.value.0, next);
        }
      }
    }

    /** handle_minutes_input. */
    method HandleMinutesInput(uid: int, text: string) returns (next: Step)
      requires Valid() && uid in conv && conv[uid] == MinutesInput
      modifies this
      ensures Valid()
      ensures uid !in old(sessions) ==> next == End && sessions == old(sessions)
      ensures uid in old(sessions) ==>
        var r := MinutesStep(old(sessions)[uid], text);
        next == r.1 && sessions == old(sessions)[uid := r.0]
      ensures conv == Advance(old(conv), uid, next)
      ensures ads == old(ads) && nextAdId == old(nextAdId) && edits == old(edits)
    {
      if uid !in sessions {
        next := End;
        Go(uid, next);
      } else {
        var r := MinutesStep(sessions[uid], text);
        next := r.1;
        Put(uid, r.0, next);
      }
    }

    /** handle_start_date_input; `parsed` is the date parse of the stripped, lower-cased text, as a day number. */
    method HandleStartDateInput(uid: int, text: string, parsed: Option<int>, today: int) returns (next: Step)
      requires Valid() && uid in conv && conv[uid] == StartDateInput
      modifies this
      ensures Valid()
      ensures uid !in old(sessions) ==> next == End && sessions == old(sessions)
      ensures uid in old(sessions) ==>
        var r := StartDateStep(old(sessions)[uid], text, parsed, today);
        next == r.1 && sessions == old(sessions)[uid := r.0]
      ensures conv == Advance(old(conv), uid, next)
      ensures ads == old(ads) && nextAdId == old(nextAdId) && edits == old(edits)
    {
      if uid !in sessions {
        next := End;
        Go(uid, next);
      } else {
        var r := StartDateStep(sessions[uid], text, parsed, today);
        next := r.1;
        Put(uid, r.0, next);
      }
    }

    /** handle_end_date_input. */
    method HandleEndDateInput(uid: int, text: string, parsed: Option<int>, today: int) returns (next: Step)
      requires Valid() && uid in conv && conv[uid] == EndDateInput
      modifies this
      ensures Valid()
      ensures uid !in old(sessions) ==> next == End && sessions == old(sessions)
      ensures uid in old(sessions) ==>
        var r := EndDateStep(old(sessions)[uid], text, parsed, today);
        next == r.1 && sessions == old(sessions)[uid := r.0]
      ensures conv == Advance(old(conv), uid, next)
      ensures ads == old(ads) && nextAdId == old(nextAdId) && edits == old(edits)
    {
      if uid !in sessions {
        next := End;
        Go(uid, next);
      } else {
        var r := EndDateStep(sessions[uid], text, parsed, today);
        next := r.1;
        Put(uid, r.0, next);
      }
    }

    /** set_timer_value: unreadable data raises and changes nothing. */
    method SetTimerValue(uid: int, data: string) returns (next: Step)
      requires Valid() && uid in conv && conv[uid] == Settings
      modifies this
      ensures Valid()
      ensures uid !in old(sessions) ==> next == End && sessions == old(sessions)
      ensures uid in old(sessions) ==> next == Settings
      ensures uid in old(sessions) && IntField(data, 1).None? ==> sessions == old(sessions)
      ensures uid in old(sessions) && IntField(data, 1).Some? ==>
        sessions == old(sessions)[uid := old(sessions)[uid].(expandTimerSeconds := IntField(data, 1).value)]
      ensures conv == Advance(old(conv), uid, next)
      ensures ads == old(ads) && nextAdId == old(nextAdId) && edits == old(edits)
    {
      if uid !in sessions {
        next := End;
        Go(uid, next);
        return;
      }
      next := Settings;
      var seconds := IntField(data, 1);
      if seconds.Some? {
        Put(uid, sessions[uid].(expandTimerSeconds := seconds.value), next);
      } else {
        Go(uid, next);
      }
    }

    /** toggle_pin and toggle_delete_old: each flips its flag. */
    method ToggleFlag(uid: int, pin: bool) returns (next: Step)
      requires Valid() && uid in conv && conv[uid] == Settings
      modifies this
      ensures Valid()
      ensures uid !in old(sessions) ==> next == End && sessions == old(sessions)
      ensures uid in old(sessions) ==>
        var s := old(sessions)[uid];
        && next == Settings
        && sessions == old(sessions)[uid := if pin then s.(pinEnabled := !s.pinEnabled) else s.(deleteOld := !s.deleteOld)]
      ensures conv == Advance(old(conv), uid, next)
      ensures ads == old(ads) && nextAdId == old(nextAdId) && edits == old(edits)
    {
      if uid !in sessions {
        next := End;
      } else {
        var s := sessions[uid];
        sessions := sessions[uid := if pin then s.(pinEnabled := !s.pinEnabled) else s.(deleteOld := !s.deleteOld)];
        next := Settings;
      }
      conv := Advance(conv, uid, next);
    }

    /**
     * The per-group loop of confirm_post: a row for every attempt whose
     * create call returned (activated unless activation raised), and the
     * success count and failure list.
     */
    method PostToGroups(uid: int, s: Session, d: Draft, attempts: seq<Attempt>)
      returns (success: nat, failed: seq<string>)
      requires Valid() && SessionOk(s) && |attempts| == |s.selectedGroups|
      modifies this
      ensures Valid()
      ensures (success, failed) == Tally(s.selectedGroups, attempts, s.availableGroups, |attempts|)
      ensures Appended(old(ads), old(nextAdId), PostedRows(uid, s, d, s.selectedGroups, attempts, |attempts|))
      ensures sessions == old(sessions) && conv == old(conv) && edits == old(edits)
    {
      success := 0;
      failed := [];
      ghost var rows: seq<Ad> := [];
      var i := 0;
      while i < |s.selectedGroups|
        invariant 0 <= i <= |s.selectedGroups|
        invariant Valid()
        invariant (success, failed) == Tally(s.selectedGroups, attempts, s.availableGroups, i)
        invariant rows == PostedRows(uid, s, d, s.selectedGroups, attempts, i)
        invariant Appended(old(ads), old(nextAdId), rows)
        invariant sessions == old(sessions) && conv == old(conv) && edits == old(edits)
      {
        var a := attempts[i];
        ghost var rows' := PostedRows(uid, s, d, s.selectedGroups, attempts, i + 1);
        if RowCreated(a) {
          var row := NewAd(uid, s, d, s.selectedGroups[i], RowActivated(a));
          assert rows' == rows + [row];
          AddAd(row, old(ads), old(nextAdId), rows);
        } else {
          assert rows' == rows;
        }
        rows := rows';
        var t := TallyAdd((success, failed), s.selectedGroups[i], a, s.availableGroups);
        assert t == Tally(s.selectedGroups, attempts, s.availableGroups, i + 1);
        success, failed := t.0, t.1;
        i := i + 1;
      }
    }

    /**
     * confirm_post: refuses an empty choice; otherwise posts to every
     * chosen group (`attempts` gives the outcome per group), reports, and
     * ends the conversation, deleting the session.
     */
    method ConfirmPost(uid: int, attempts: seq<Attempt>) returns (next: Step, report: Option<Report>)
      requires Valid() && uid in conv && conv[uid] == Settings
      requires uid in sessions ==> |attempts| == |sessions[uid].selectedGroups|
      modifies this
      ensures Valid()
      ensures uid !in old(sessions) ==>
        next == End && report == None && sessions == old(sessions) && ads == old(ads) && nextAdId == old(nextAdId)
      ensures uid in old(sessions) && old(sessions)[uid].selectedGroups == [] ==>
        next == Settings && report == None && sessions == old(sessions) && ads == old(ads) && nextAdId == old(nextAdId)
      ensures uid in old(sessions) && old(sessions)[uid].selectedGroups != [] ==>
        var s := old(sessions)[uid];
        var t := Tally(s.selectedGroups, attempts, s.availableGroups, |attempts|);
        && next == End
        && report == Some(ReportOf(t.0, t.1, |s.selectedGroups|))
        && sessions == old(sessions) - {uid}
        && Appended(old(ads), old(nextAdId), PostedRows(uid, s, s.result.value, s.selectedGroups, attempts, |attempts|))
        && (forall id :: id in old(ads) ==> id in ads && ads[id] == old(ads)[id])
        && (forall id :: id in ads && id !in old(ads) ==>
              (ads[id].userId == uid && ads[id].targetChatId.Some? && ads[id].targetChatId.value in s.selectedGroups))
      ensures conv == Advance(old(conv), uid, next)
      ensures edits == old(edits)
    {
      if uid !in sessions {
        next := End;
        report := None;
      } else if sessions[uid].selectedGroups == [] {
        next := Settings;
        report := None;
      } else {
        var s := sessions[uid];
        var d := s.result.value;
        ghost var before := ads;
        ghost var base := nextAdId;
        var success, failed := PostToGroups(uid, s, d, attempts);
        PostedRowsShape(uid, s, d, s.selectedGroups, attempts, |attempts|);
        ghost var rows := PostedRows(uid, s, d, s.selectedGroups, attempts, |attempts|);
        forall id | id in ads && id !in before
          ensures ads[id].userId == uid && ads[id].targetChatId.Some? && ads[id].targetChatId.value in s.selectedGroups
        {
          assert ads[base + (id - base)] == rows[id - base];
        }
        report := Some(ReportOf(success, failed, |s.selectedGroups|));
        next := End;
        EndSession(uid);
        return;
      }
      Go(uid, next);
    }

    /** cancel: drops the session and ends the conversation, from any state. */
    method Cancel(uid: int) returns (next: Step)
      requires Valid() && uid in conv
      modifies this
      ensures Valid()
      ensures next == End
      ensures sessions == old(sessions) - {uid}
      ensures conv == Advance(old(conv), uid, next)
      ensures ads == old(ads) && nextAdId == old(nextAdId) && edits == old(edits)
    {
      next := End;
      EndSession(uid);
    }

    // -------------------------------------------------------------------
    // Editing an existing ad
    // -------------------------------------------------------------------

    function EditOf(uid: int): EditContext
      reads this
    {
      if uid in edits then edits[uid] else EmptyContext
    }

    /** Whether `uid` may edit ad `id`. */
    predicate Owns(uid: int, id: int)
      reads this
    {
      id in ads && ads[id].userId == uid
    }

    /**
     * handle_wverwalten_change_groups: for the owner of a readable ad id and
     * at least one active group, starts a fresh group choice remembering
     * the ad's current group.
     */
    method ChangeGroups(uid: int, data: string, groups: seq<Group>) returns (started: bool)
      requires Valid()
      modifies this
      ensures Valid()
      ensures started <==> IntField(data, 1).Some? && old(Owns(uid, IntField(data, 1).value)) && groups != []
      ensures !started ==> edits == old(edits)
      ensures started ==>
        var id := IntField(data, 1).value;
        edits == old(edits)[uid := old(EditOf(uid)).(editingId := Some(id), originalChatId := old(ads)[id].targetChatId,
                                                     selectedGroupIds := [], availableGroups := groups)]
      ensures sessions == old(sessions) && conv == old(conv) && ads == old(ads) && nextAdId == old(nextAdId)
    {
      var id := IntField(data, 1);
      if id.None? || !Owns(uid, id.value) || groups == [] {
        started := false;
      } else {
        var c := EditOf(uid);
        SetEdit(uid, c.(editingId := Some(id.value), originalChatId := ads[id.value].targetChatId,
                        selectedGroupIds := [], availableGroups := groups));
        started := true;
      }
    }

    /** handle_wverwalten_toggle_group: toggles a group of the running choice. */
    method ToggleEditGroup(uid: int, data: string) returns (toggled: bool)
      requires Valid()
      modifies this
      ensures Valid()
      ensures toggled <==> IntField(data, 1).Some? && !EditExpired(old(EditOf(uid)))
      ensures !toggled ==> edits == old(edits)
      ensures toggled ==>
        var c := old(EditOf(uid));
        edits == old(edits)[uid := c.(selectedGroupIds := Toggle(c.selectedGroupIds, IntField(data, 1).value))]
      ensures sessions == old(sessions) && conv == old(conv) && ads == old(ads) && nextAdId == old(nextAdId)
    {
      var chatId := IntField(data, 1);
      var c := EditOf(uid);
      if chatId.None? || EditExpired(c) {
        toggled := false;
      } else {
        ToggleShape(c.selectedGroupIds, chatId.value);
        SetEdit(uid, c.(selectedGroupIds := Toggle(c.selectedGroupIds, chatId.value)));
        toggled := true;
      }
    }

    /** The copy loop of handle_wverwalten_groups_confirm: one activated copy per chosen group except the current one. */
    method CopyToGroups(ad: Ad, selected: seq<int>, original: int) returns (copied: nat)
      requires Valid() && AdOk(ad)
      modifies this
      ensures Valid()
      ensures copied == |Copies(ad, selected, original)|
      ensures Appended(old(ads), old(nextAdId), Copies(ad, selected, original))
      ensures sessions == old(sessions) && conv == old(conv) && edits == old(edits)
    {
      copied := 0;
      ghost var rows: seq<Ad> := [];
      var i := 0;
      while i < |selected|
        invariant 0 <= i <= |selected|
        invariant Valid()
        invariant rows == Copies(ad, selected[..i], original) && copied == |rows|
        invariant Appended(old(ads), old(nextAdId), rows)
        invariant sessions == old(sessions) && conv == old(conv) && edits == old(edits)
      {
        assert selected[..i + 1][..i] == selected[..i];
        if selected[i] != original {
          AddAd(CopyFor(ad, selected[i]), old(ads), old(nextAdId), rows);
          rows := rows + [CopyFor(ad, selected[i])];
          copied := copied + 1;
        }
        i := i + 1;
      }
      assert selected[..|selected|] == selected;
    }

    /**
     * handle_wverwalten_groups_confirm: one chosen group moves the ad there;
     * several leave it in place and copy it to each other chosen group.
     * Either way the choice is cleared from the edit context.
     */
    method GroupsConfirm(uid: int) returns (outcome: GroupsOutcome)
      requires Valid()
      modifies this
      ensures Valid()
      ensures var c := old(EditOf(uid));
        && (outcome == SessionExpired <==> EditExpired(c))
        && (outcome == NoneChosen <==> !EditExpired(c) && c.selectedGroupIds == [])
        && (outcome == NotOwner <==> !EditExpired(c) && c.selectedGroupIds != [] && !old(Owns(uid, c.editingId.value)))
      ensures outcome.SessionExpired? || outcome.NoneChosen? || outcome.NotOwner? ==>
        edits == old(edits) && ads == old(ads) && nextAdId == old(nextAdId)
      ensures outcome.Moved? ==>
        var c := old(EditOf(uid));
        var id := c.editingId.value;
        && c.selectedGroupIds == [outcome.chatId]
        && ads == old(ads)[id := old(ads)[id].(targetChatId := Some(outcome.chatId))]
        && nextAdId == old(nextAdId)
      ensures outcome.Copied? ==>
        var c := old(EditOf(uid));
        && |c.selectedGroupIds| >= 2
        && outcome.count == |Copies(old(ads)[c.editingId.value], c.selectedGroupIds, c.originalChatId.value)|
        && Appended(old(ads), old(nextAdId), Copies(old(ads)[c.editingId.value], c.selectedGroupIds, c.originalChatId.value))
      ensures outcome.Moved? || outcome.Copied? ==>
        edits == old(edits)[uid := old(EditOf(uid)).(editingId := None, originalChatId := None,
                                                     selectedGroupIds := [], availableGroups := [])]
      ensures sessions == old(sessions) && conv == old(conv)
    {
      var c := EditOf(uid);
      if EditExpired(c) {
        return SessionExpired;
      }
      if c.selectedGroupIds == [] {
        return NoneChosen;
      }
      var id := c.editingId.value;
      if !Owns(uid, id) {
        return NotOwner;
      }
      var selected := c.selectedGroupIds;
      if |selected| == 1 {
        ads := ads[id := ads[id].(targetChatId := Some(selected[0]))];
        outcome := Moved(selected[0]);
        assert selected == [selected[0]];
      } else {
        var copied := CopyToGroups(ads[id], selected, c.originalChatId.value);
        outcome := Copied(copied);
      }
      edits := edits[uid := c.(editingId := None, originalChatId := None, selectedGroupIds := [], availableGroups := [])];
    }

    /**
     * handle_wverwalten_setinterval: for the owner, hourly waits for the
     * minutes; any other kind is stored at once (daily and weekly with their
     * fixed times) and reported as saved.
     */
    method SetEditInterval(uid: int, data: string) returns (saved: bool)
      requires Valid()
      modifies this
      ensures Valid()
      ensures var id := IntField(data, 1); var kind := Field(data, 2);
        var ok := id.Some? && kind.Some? && old(Owns(uid, id.value));
        && (!ok ==> !saved && edits == old(edits) && ads == old(ads))
        && (ok && kind.value == Stuendlich ==>
              && !saved && ads == old(ads)
              && edits == old(edits)[uid := old(EditOf(uid)).(editingId := id, waitingForMinutes := true)])
        && (ok && kind.value != Stuendlich ==>
              var ad := old(ads)[id.value].(intervall := kind.value);
              && saved && edits == old(edits)
              && ads == old(ads)[id.value := if kind.value == Taeglich then ad.(intervallTime := Some("12:00"))
                                             else if kind.value == Woechentlich then ad.(intervallDays := Some([1, 3, 5]), intervallTime := Some("12:00"))
                                             else ad])
      ensures sessions == old(sessions) && conv == old(conv) && nextAdId == old(nextAdId)
    {
      var id := IntField(data, 1);
      var kind := Field(data, 2);
      if id.None? || kind.None? || !Owns(uid, id.value) {
        return false;
      }
      if kind.value == Stuendlich {
        SetEdit(uid, EditOf(uid).(editingId := id, waitingForMinutes := true));
        return false;
      }
      var ad := ads[id.value].(intervall := kind.value);
      if kind.value == Taeglich {
        ad := ad.(intervallTime := Some("12:00"));
      } else if kind.value == Woechentlich {
        ad := ad.(intervallDays := Some([1, 3, 5]), intervallTime := Some("12:00"));
      }
      SetAd(id.value, ad);
      saved := true;
    }

    /** `not werbung_id`: the edit handlers treat a missing or zero ad id as a lost session. */
    static predicate SessionLost(c: EditContext) {
      c.editingId.None? || c.editingId.value == 0
    }

    /**
     * What handle_wverwalten_edit_minutes_message does.  Without a waiting
     * flag nothing happens; without an ad id the whole context is cleared;
     * a number from 1 to 1440 makes the ad hourly at that many minutes and
     * ends the wait; anything else asks again.  A message without text
     * raises once the number is read.
     */
    twostate predicate MinutesEdited(uid: int, text: Option<string>, saved: bool)
      reads this
    {
      var c := old(EditOf(uid));
      var minutes := if text.Some? then ParseInt(Strip(text.value)) else None;
      var inRange := minutes.Some? && MinMinutes <= minutes.value <= MaxMinutes;
      && (!c.waitingForMinutes ==> !saved && edits == old(edits) && ads == old(ads))
      && (c.waitingForMinutes && SessionLost(c) ==>
            !saved && edits == old(edits)[uid := EmptyContext] && ads == old(ads))
      && (c.waitingForMinutes && !SessionLost(c) && !inRange ==>
            !saved && edits == old(edits) && ads == old(ads))
      && (c.waitingForMinutes && !SessionLost(c) && inRange ==>
            && edits == old(edits)[uid := c.(waitingForMinutes := false, editingId := None)]
            && saved == (c.editingId.value in old(ads))
            && ads == (if saved then old(ads)[c.editingId.value := old(ads)[c.editingId.value].(intervallHours := minutes, intervall := Stuendlich)]
                       else old(ads)))
    }

    /**
     * What handle_wverwalten_edit_text_message does.  Without a waiting
     * flag nothing happens; without an ad id the whole context is cleared;
     * a stripped text of at least ten characters becomes the ad's content
     * and ends the wait; a shorter one asks again.  A message without text
     * raises at the strip.
     */
    twostate predicate TextEdited(uid: int, text: Option<string>, saved: bool)
      reads this
    {
      var c := old(EditOf(uid));
      var accepted := text.Some? && |Strip(text.value)| >= MinEditTextLength;
      && (!c.waitingForText ==> !saved && edits == old(edits) && ads == old(ads))
      && (c.waitingForText && SessionLost(c) ==>
            !saved && edits == old(edits)[uid := EmptyContext] && ads == old(ads))
      && (c.waitingForText && !SessionLost(c) && !accepted ==>
            !saved && edits == old(edits) && ads == old(ads))
      && (c.waitingForText && !SessionLost(c) && accepted ==>
            && edits == old(edits)[uid := c.(waitingForText := false, editingId := None)]
            && saved == (c.editingId.value in old(ads))
            && ads == (if saved then old(ads)[c.editingId.value := old(ads)[c.editingId.value].(content := Strip(text.value))]
                       else old(ads)))
    }

    /**
     * What handle_wverwalten_edit_media_message does.  Without a waiting
     * flag nothing happens; without an ad id the whole context is cleared;
     * a photo (its largest size) or a video replaces the ad's media by that
     * one file and ends the wait; anything else asks again.
     */
    twostate predicate MediaEdited(uid: int, media: Option<Media>, saved: bool)
      reads this
    {
      var c := old(EditOf(uid));
      var accepted := media.Some? && !media.value.Document?;
      && (!c.waitingForMedia ==> !saved && edits == old(edits) && ads == old(ads))
      && (c.waitingForMedia && SessionLost(c) ==>
            !saved && edits == old(edits)[uid := EmptyContext] && ads == old(ads))
      && (c.waitingForMedia && !SessionLost(c) && !accepted ==>
            !saved && edits == old(edits) && ads == old(ads))
      && (c.waitingForMedia && !SessionLost(c) && accepted ==>
            && edits == old(edits)[uid := c.(waitingForMedia := false, editingId := None)]
            && saved == (c.editingId.value in old(ads))
            && ads == (if saved then old(ads)[c.editingId.value := old(ads)[c.editingId.value].(
                                       mediaIds := [media.value.fileId],
                                       mediaType := Some(if media.value.Photo? then PhotoKind else VideoKind))]
                       else old(ads)))
    }

    /** handle_wverwalten_edit_minutes_message. */
    method EditMinutesMessage(uid: int, text: Option<string>) returns (saved: bool)
      requires Valid()
      modifies this
      ensures Valid()
      ensures MinutesEdited(uid, text, saved)
      ensures sessions == old(sessions) && conv == old(conv) && nextAdId == old(nextAdId)
    {
      var c := EditOf(uid);
      if !c.waitingForMinutes {
        return false;
      }
      if SessionLost(c) {
        SetEdit(uid, EmptyContext);
        return false;
      }
      if text.None? {
        return false;
      }
      var minutes := ParseInt(Strip(text.value));
      if minutes.None? || minutes.value < MinMinutes || minutes.value > MaxMinutes {
        return false;
      }
      var id := c.editingId.value;
      if id in ads {
        SetAd(id, ads[id].(intervallHours := minutes, intervall := Stuendlich));
        saved := true;
      } else {
        saved := false;
      }
      SetEdit(uid, c.(waitingForMinutes := false, editingId := None));
    }

    /** handle_wverwalten_edit_text_message. */
    method EditTextMessage(uid: int, text: Option<string>) returns (saved: bool)
      requires Valid()
      modifies this
      ensures Valid()
      ensures TextEdited(uid, text, saved)
      ensures sessions == old(sessions) && conv == old(conv) && nextAdId == old(nextAdId)
    {
      var c := EditOf(uid);
      if !c.waitingForText {
        return false;
      }
      if SessionLost(c) {
        SetEdit(uid, EmptyContext);
        return false;
      }
      if text.None? {
        return false;
      }
      var newText := Strip(text.value);
      if |newText| < MinEditTextLength {
        return false;
      }
      var id := c.editingId.value;
      if id in ads {
        SetAd(id, ads[id].(content := newText));
        saved := true;
      } else {
        saved := false;
      }
      SetEdit(uid, c.(waitingForText := false, editingId := None));
    }

    /** handle_wverwalten_edit_media_message. */
    method EditMediaMessage(uid: int, media: Option<Media>) returns (saved: bool)
      requires Valid()
      modifies this
      ensures Valid()
      ensures MediaEdited(uid, media, saved)
      ensures sessions == old(sessions) && conv == old(conv) && nextAdId == old(nextAdId)
    {
      var c := EditOf(uid);
      if !c.waitingForMedia {
        return false;
      }
      if SessionLost(c) {
        SetEdit(uid, EmptyContext);
        return false;
      }
      var kind: string;
      match media {
        case Some(Photo(_)) => kind := PhotoKind;
        case Some(Video(_)) => kind := VideoKind;
        case _ => return false;
      }
      var id := c.editingId.value;
      if id in ads {
        SetAd(id, ads[id].(mediaIds := [media.value.fileId], mediaType := Some(kind)));
        saved := true;
      } else {
        saved := false;
      }
      SetEdit(uid, c.(waitingForMedia := false, editingId := None));
    }

    /**
     * handle_wverwalten_edit_message_router: a private message goes to the
     * minute input first, then to the text edit, then to the media edit,
     * and is ignored when the user waits for none of them.
     */
    method RouteEditMessage(uid: int, m: Incoming) returns (route: Route, saved: bool)
      requires Valid()
      modifies this
      ensures Valid()
      ensures route == RouteFor(old(EditOf(uid)))
      ensures route == ToMinutes ==> MinutesEdited(uid, m.text, saved)
      ensures route == ToText ==> TextEdited(uid, m.text, saved)
      ensures route == ToMedia ==> MediaEdited(uid, m.media, saved)
      ensures route == Ignored ==> !saved && edits == old(edits) && ads == old(ads)
      ensures sessions == old(sessions) && conv == old(conv) && nextAdId == old(nextAdId)
    {
      route := RouteFor(EditOf(uid));
      match route {
        case ToMinutes => saved := EditMinutesMessage(uid, m.text);
        case ToText => saved := EditTextMessage(uid, m.text);
        case ToMedia => saved := EditMediaMessage(uid, m.media);
        case Ignored => saved := false;
      }
    }
  }
}
