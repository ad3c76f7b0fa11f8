/**
 * The slash commands that read or write the store or validate their arguments:
 * `/sorry`, `/say`, `/echo`, `/timer`, `/時報`, `おみくじ` and `/ranking`. Each regex of
 * the commands is written out as a scanner over the message body.
 */
module MainCommands {
  import opened Wrappers
  import opened Text
  import opened Ranking
  import opened Db
  import opened Queries

  /** `FirstFrom` finds `k` when `P(k)` holds and nothing before it does. */
  lemma FirstFromIs(from: nat, bound: nat, P: nat -> bool, k: nat)
    requires from <= k < bound && P(k)
    requires forall j :: from <= j < k ==> !P(j)
    ensures FirstFrom(from, bound, P) == Some(k)
  {
  }

  // ---------------------------------------------------------------------------
  // `/sorry <user>`: `re.search(r'/sorry\s+(\d+)', body)`
  // ---------------------------------------------------------------------------

  /** A match starts at `i`: the literal, whitespace, and a digit right after the whitespace. */
  predicate SorryAt(s: string, i: nat) {
    OccursAt(s, "/sorry", i) && i + 6 < |s| && IsSpace(s[i + 6]) &&
    var j := SkipSpaces(s, i + 7);
    j < |s| && IsDigit(s[j])
  }

  /** The number of a match that starts at `i`: the digit run after the whitespace. */
  function SorryCapture(s: string, i: nat): nat
    requires i + 7 <= |s|
  {
    var j := SkipSpaces(s, i + 7);
    DigitsValue(s[j..RunEnd(s, j)])
  }

  /** The user id captured by the leftmost match, if there is one. */
  function SorryArgument(s: string): Option<nat> {
    match FirstFrom(0, |s|, (i: nat) => SorryAt(s, i))
    case None => None
    case Some(i) => Some(SorryCapture(s, i))
  }

  /** `/sorry <n>` names user `n`, whatever follows the number. */
  lemma SorryArgumentOf(n: nat, rest: string)
    requires rest == [] || !IsDigit(rest[0])
    ensures SorryArgument("/sorry " + NatToString(n) + rest) == Some(n)
  {
    var pre, d := "/sorry ", NatToString(n);
    var t := d + rest;
    assert t[0] == d[0];
    SorryMatchAtStart(pre, t);
    AppendAssoc(pre, d, rest);
    NumberAt(pre, n, rest);
  }

  /** A body that starts with `/sorry `, then a digit, matches at 0 and captures the digit run at 7. */
  lemma SorryMatchAtStart(pre: string, t: string)
    requires pre == "/sorry " && t != [] && IsDigit(t[0])
    ensures SorryArgument(pre + t) == Some(DigitsValue((pre + t)[7..RunEnd(pre + t, 7)]))
  {
    var s := pre + t;
    assert s[0..6] == pre[0..6];
    assert s[7] == t[0];
    assert SkipSpaces(s, 7) == 7;
    var P := (i: nat) => SorryAt(s, i);
    FirstFromIs(0, |s|, P, 0);
  }

  /** Without a number after the whitespace there is no match, so the usage notice is posted. */
  lemma SorryWithoutNumber(rest: string)
    requires rest == [] || (!IsDigit(rest[0]) && !IsSpace(rest[0]))
    requires !Contains(rest, "/sorry")
    ensures SorryArgument("/sorry " + rest) == None
  {
    var s := "/sorry " + rest;
    forall i: nat | 1 <= i < 7 ensures !OccursAt(s, "/sorry", i) {
      assert s[i] == "/sorry "[i] && s[i] != '/';
      if i + 6 <= |s| {
        assert s[i..i + 6][0] == s[i];
      }
    }
    forall i: nat | i < |s| ensures !SorryAt(s, i) {
      if i == 0 {
        if 7 < |s| {
          assert s[7] == rest[0];
          assert SkipSpaces(s, 7) == 7;
        }
      } else if OccursAt(s, "/sorry", i) {
        assert rest[i - 7..i - 7 + 6] == s[i..i + 6];
        ContainsIff(rest, "/sorry");
        assert OccursAt(rest, "/sorry", i - 7);
      }
    }
  }

  /** `delete().eq('user_id', user)` on `viewer_list`. */
  function WithoutViewer(viewers: seq<nat>, user: nat): (r: seq<nat>)
    ensures forall x :: x in r <==> x in viewers && x != user
    ensures user in viewers <==> |r| < |viewers|
    ensures user !in viewers ==> r == viewers
  {
    if viewers == [] then []
    else
      var p := viewers[..|viewers| - 1];
      var last := viewers[|viewers| - 1];
      assert viewers == p + [last];
      WithoutViewer(p, user) + (if last == user then [] else [last])
  }

  /** What `sorry_command` does to the viewer list and the chat. */
  twostate predicate SorryEffect(db: Store, chat: Chat, room: nat, body: string)
    reads db, chat
  {
    (SorryArgument(body).None? ==>
       db.viewerList == old(db.viewerList) && chat.sent == old(chat.sent) + [Post(NatToString(room), SorryUsage)]) &&
    (SorryArgument(body).Some? && !db.connected ==>
       db.viewerList == old(db.viewerList) &&
       chat.sent == old(chat.sent) + [Post(NatToString(room), DatabaseUnavailable)]) &&
    (SorryArgument(body).Some? && db.connected ==>
       var user := SorryArgument(body).value;
       db.viewerList == WithoutViewer(old(db.viewerList), user) &&
       chat.sent == old(chat.sent) + [Post(NatToString(room),
         if user in old(db.viewerList) then ViewerRemoved(user) else ViewerNotFound)])
  }

  /**
   * `sorry_command`: without a user id only the usage notice; otherwise the id leaves the
   * viewer list and the reply says whether a row was deleted. A failing store leaves the
   * list as it was and posts the error notice.
   */
  method SorryCommand(db: Store, chat: Chat, room: nat, body: string)
    modifies db`viewerList, chat
    ensures SorryEffect(db, chat, room, body)
  {
    var here := NatToString(room);
    var arg := SorryArgument(body);
    if arg.None? {
      chat.sent := chat.sent + [Post(here, SorryUsage)];
      return;
    }
    var user := arg.value;
    if !db.connected {
      chat.sent := chat.sent + [Post(here, DatabaseUnavailable)];
      return;
    }
    var before := db.viewerList;
    db.viewerList := WithoutViewer(db.viewerList, user);
    var deleted := |db.viewerList| < |before|;
    chat.sent := chat.sent + [Post(here, if deleted then ViewerRemoved(user) else ViewerNotFound)];
  }

  // ---------------------------------------------------------------------------
  // `/say` and `/echo`
  // ---------------------------------------------------------------------------

  /** `say_command`: the body without its first `"/say "` is posted unless it is blank. */
  function SayReply(body: string): Content {
    var message := ReplaceFirst(body, "/say ", "");
    if Strip(message) == [] then SayUsage else Text(message)
  }

  /** `echo_command`: the body without its first `"/echo "`, stripped, is posted unless it is empty. */
  function EchoReply(body: string): Content {
    var message := Strip(ReplaceFirst(body, "/echo ", ""));
    if message == [] then EchoUsage else Text(message)
  }

  lemma ReplacePrefix(pat: string, text: string)
    requires |pat| > 0
    ensures ReplaceFirst(pat + text, pat, "") == text
  {
    var s := pat + text;
    assert OccursAt(s, pat, 0) by { assert s[..|pat|] == pat; }
    FirstFromIs(0, |s| + 1, (i: nat) => OccursAt(s, pat, i), 0);
    assert s[|pat|..] == text;
  }

  /** `/say <text>` posts `text` as it is, unless `text` is blank, which gets the usage notice. */
  lemma SayReplyOf(text: string)
    ensures SayReply("/say " + text) == if IsBlank(text) then SayUsage else Text(text)
  {
    ReplacePrefix("/say ", text);
    StripProperties(text);
  }

  /** `/echo <text>` posts `text` without surrounding whitespace, unless nothing is left. */
  lemma EchoReplyOf(text: string)
    ensures EchoReply("/echo " + text) == if IsBlank(text) then EchoUsage else Text(Strip(text))
  {
    ReplacePrefix("/echo ", text);
    StripProperties(text);
  }

  /** A bare `/say` has no `"/say "` in it, so the command word itself is posted. */
  lemma SayBare()
    ensures SayReply("/say") == Text("/say")
  {
    assert !Contains("/say", "/say ") by {
      ContainsIff("/say", "/say ");
    }
    assert Strip("/say") != [] by {
      StripProperties("/say");
      assert !IsSpace("/say"[0]);
    }
  }

  method SayCommand(chat: Chat, room: nat, body: string)
    modifies chat
    ensures chat.sent == old(chat.sent) + [Post(NatToString(room), SayReply(body))]
  {
    var message := ReplaceFirst(body, "/say ", "");
    if Strip(message) == [] {
      chat.sent := chat.sent + [Post(NatToString(room), SayUsage)];
      return;
    }
    chat.sent := chat.sent + [Post(NatToString(room), Text(message))];
  }

  method EchoCommand(chat: Chat, room: nat, body: string)
    modifies chat
    ensures chat.sent == old(chat.sent) + [Post(NatToString(room), EchoReply(body))]
  {
    var message := Strip(ReplaceFirst(body, "/echo ", ""));
    if message == [] {
      chat.sent := chat.sent + [Post(NatToString(room), EchoUsage)];
      return;
    }
    chat.sent := chat.sent + [Post(NatToString(room), Text(message))];
  }

  // ---------------------------------------------------------------------------
  // `/timer <minutes> <task>`: `re.search(r'/timer\s+(\d+)\s+(.+)', body)`
  // ---------------------------------------------------------------------------

  /** The end of the line that starts at `p` (regex `.` stops at a newline). */
  function LineEnd(s: string, p: nat): (e: nat)
    requires p <= |s|
    ensures p <= e <= |s| && (e == |s| || s[e] == '\n')
    ensures forall k :: p <= k < e ==> s[k] != '\n'
    decreases |s| - p
  {
    if p < |s| && s[p] != '\n' then LineEnd(s, p + 1) else p
  }

  /** The last position in `[lo, hi)` that is not a newline. */
  function LastNonNewline(s: string, lo: nat, hi: nat): (r: Option<nat>)
    requires hi <= |s|
    ensures r.Some? ==> lo <= r.value < hi && s[r.value] != '\n' && forall k :: r.value < k < hi ==> s[k] == '\n'
    ensures r.None? ==> forall k :: lo <= k < hi ==> s[k] == '\n'
    decreases hi
  {
    if hi <= lo then None
    else if s[hi - 1] != '\n' then Some(hi - 1)
    else LastNonNewline(s, lo, hi - 1)
  }

  /**
   * Where `(.+)` starts after the digit run ending at `e`: `\s+` first takes all the
   * whitespace, and gives back whitespace characters from the end until `.+` can match
   * one character that is not a newline.
   */
  function TaskStart(s: string, e: nat): Option<nat>
    requires e < |s|
  {
    var k := SkipSpaces(s, e);
    if k < |s| then Some(k) else LastNonNewline(s, e + 1, k)
  }

  predicate TimerAt(s: string, i: nat) {
    OccursAt(s, "/timer", i) && i + 6 < |s| && IsSpace(s[i + 6]) &&
    var j := SkipSpaces(s, i + 7);
    var e := RunEnd(s, j);
    j < e && e < |s| && IsSpace(s[e]) && TaskStart(s, e).Some?
  }

  /** The minutes and the task text the leftmost match captures. */
  function TimerArguments(s: string): Option<(nat, string)> {
    match FirstFrom(0, |s|, (i: nat) => TimerAt(s, i))
    case None => None
    case Some(i) =>
      var j := SkipSpaces(s, i + 7);
      var e := RunEnd(s, j);
      var p := TaskStart(s, e).value;
      Some((DigitsValue(s[j..e]), s[p..LineEnd(s, p)]))
  }

  lemma SkipNone(s: string, i: nat)
    requires i < |s| && !IsSpace(s[i])
    ensures SkipSpaces(s, i) == i
  {
  }

  lemma SkipOne(s: string, i: nat)
    requires i + 1 < |s| && IsSpace(s[i]) && !IsSpace(s[i + 1])
    ensures SkipSpaces(s, i) == i + 1
  {
    SkipNone(s, i + 1);
  }

  /** After any prefix, one space and then a one-line task: the task starts after the space and runs to the end. */
  lemma TaskAfterSpace(pre: string, task: string)
    requires task != [] && !IsSpace(task[0])
    requires forall k :: 0 <= k < |task| ==> task[k] != '\n'
    ensures var s := pre + " " + task;
            var e := |pre|;
            e + 1 < |s| && IsSpace(s[e]) && SkipSpaces(s, e) == e + 1 && LineEnd(s, e + 1) == |s| && s[e + 1..|s|] == task
  {
    var s := pre + " " + task;
    var e := |pre|;
    assert s[e] == ' ' && s[e + 1] == task[0];
    SkipOne(s, e);
    assert s[e + 1..] == task;
    forall k | e + 1 <= k < |s| ensures s[k] != '\n' {
      assert s[k] == task[k - e - 1];
    }
    LineEndAll(s, e + 1);
  }

  /** The positions the scanner finds in `/timer <n> <task>`. */
  lemma TimerPositions(n: nat, task: string)
    requires task != [] && !IsSpace(task[0])
    requires forall k :: 0 <= k < |task| ==> task[k] != '\n'
    ensures var s := "/timer " + NatToString(n) + " " + task;
            var e := 7 + |NatToString(n)|;
            e < |s| && SkipSpaces(s, 7) == 7 && RunEnd(s, 7) == e && DigitsValue(s[7..e]) == n &&
            IsSpace(s[e]) && SkipSpaces(s, e) == e + 1 && e + 1 < |s| && LineEnd(s, e + 1) == |s| && s[e + 1..|s|] == task
  {
    var pre, digits := "/timer ", NatToString(n);
    var s := pre + digits + " " + task;
    AppendAssoc(pre + digits, " ", task);
    NumberAt(pre, n, " " + task);
    assert s[7] == digits[0];
    SkipNone(s, 7);
    TaskAfterSpace(pre + digits, task);
  }

  /** `/timer <n> <task>` matches at its start. */
  lemma TimerMatchesAtStart(n: nat, task: string)
    requires task != [] && !IsSpace(task[0])
    requires forall k :: 0 <= k < |task| ==> task[k] != '\n'
    ensures var s := "/timer " + NatToString(n) + " " + task;
            TimerAt(s, 0) && TaskStart(s, 7 + |NatToString(n)|) == Some(8 + |NatToString(n)|)
  {
    var s := "/timer " + NatToString(n) + " " + task;
    TimerPositions(n, task);
    assert s[..6] == "/timer" && s[6] == ' ';
    assert s[0..0 + |"/timer"|] == "/timer";
  }

  /** `/timer <n> <task>` captures `n` and the whole one-line task. */
  lemma TimerArgumentsOf(n: nat, task: string)
    requires task != [] && !IsSpace(task[0])
    requires forall k :: 0 <= k < |task| ==> task[k] != '\n'
    ensures TimerArguments("/timer " + NatToString(n) + " " + task) == Some((n, task))
  {
    var s := "/timer " + NatToString(n) + " " + task;
    var e := 7 + |NatToString(n)|;
    TimerPositions(n, task);
    TimerMatchesAtStart(n, task);
    assert s[e + 1..|s|] == task;
    TimerArgumentsAtStart(s, e, n, task);
  }

  /** A match at 0 whose digit run ends at `e` and whose task starts right after it. */
  lemma TimerArgumentsAtStart(s: string, e: nat, n: nat, task: string)
    requires TimerAt(s, 0) && e < |s| && SkipSpaces(s, 7) == 7 && RunEnd(s, 7) == e
    requires TaskStart(s, e) == Some(e + 1) && DigitsValue(s[7..e]) == n && LineEnd(s, e + 1) == |s| && s[e + 1..|s|] == task
    ensures TimerArguments(s) == Some((n, task))
  {
    var P := (i: nat) => TimerAt(s, i);
    FirstFromIs(0, |s|, P, 0);
    assert FirstFrom(0, |s|, P) == Some(0);
  }

  lemma {:induction false} LineEndAll(s: string, p: nat)
    requires p <= |s|
    requires forall k :: p <= k < |s| ==> s[k] != '\n'
    ensures LineEnd(s, p) == |s|
    decreases |s| - p
  {
    if p < |s| {
      LineEndAll(s, p + 1);
    }
  }

  /** `timer_command`'s replies: the usage notice, the zero-minute notice, or the confirmation followed by the reminder. */
  function TimerReplies(account: nat, body: string): seq<Content> {
    match TimerArguments(body)
    case None => [TimerUsage]
    case Some((minutes, task)) =>
      if minutes <= 0 then [TimerNotPositive] else [TimerSet(minutes), TimerElapsed(account, minutes, task)]
  }

  /** A timer is set exactly when the arguments parse with a positive number of minutes, and then the reminder names the sender. */
  lemma TimerRepliesProperties(account: nat, body: string)
    ensures |TimerReplies(account, body)| == 2 <==> TimerArguments(body).Some? && TimerArguments(body).value.0 > 0
    ensures |TimerReplies(account, body)| == 2 ==>
              TimerReplies(account, body)[1] ==
              TimerElapsed(account, TimerArguments(body).value.0, TimerArguments(body).value.1)
  {
  }

  /** What `timer_command` posts: `TimerReplies`, in order, to the room. */
  twostate predicate TimerEffect(chat: Chat, room: nat, account: nat, body: string)
    reads chat
  {
    (|chat.sent| == |old(chat.sent)| + |TimerReplies(account, body)|) &&
    (chat.sent[..|old(chat.sent)|] == old(chat.sent)) &&
    (forall i :: 0 <= i < |TimerReplies(account, body)| ==>
       chat.sent[|old(chat.sent)| + i] == Post(NatToString(room), TimerReplies(account, body)[i]))
  }

  /** `timer_command`; the wait between the two posts is not modelled. */
  method TimerCommand(chat: Chat, room: nat, account: nat, body: string)
    modifies chat
    ensures TimerEffect(chat, room, account, body)
  {
    var here := NatToString(room);
    var arg := TimerArguments(body);
    if arg.None? {
      chat.sent := chat.sent + [Post(here, TimerUsage)];
      return;
    }
    var (minutes, task) := arg.value;
    if minutes <= 0 {
      chat.sent := chat.sent + [Post(here, TimerNotPositive)];
      return;
    }
    chat.sent := chat.sent + [Post(here, TimerSet(minutes))];
    chat.sent := chat.sent + [Post(here, TimerElapsed(account, minutes, task))];
  }

  // ---------------------------------------------------------------------------
  // `/時報`: `OK`, `NO`, or an interval such as `1h`, `30m` or `1h 30m`
  // ---------------------------------------------------------------------------

  /**
   * `(\d+)\s*<unit>` matches at `i`: a digit, then (the rest of) its digit run, optional
   * whitespace and the unit letter. A shorter digit run cannot help, because a digit is
   * never whitespace or a unit letter.
   */
  predicate UnitAt(s: string, i: nat, unit: char) {
    i < |s| && IsDigit(s[i]) &&
    var j := SkipSpaces(s, RunEnd(s, i));
    j < |s| && s[j] == unit
  }

  /** The number captured by the leftmost match of `(\d+)\s*<unit>`. */
  function UnitNumber(s: string, unit: char): Option<nat> {
    match FirstFrom(0, |s|, (i: nat) => UnitAt(s, i, unit))
    case None => None
    case Some(i) => Some(DigitsValue(s[i..RunEnd(s, i)]))
  }

  /** The leftmost match starts where a digit run starts, so the whole run is captured. */
  lemma UnitMatchWholeRun(s: string, unit: char)
    ensures var f := FirstFrom(0, |s|, (i: nat) => UnitAt(s, i, unit));
            f.Some? ==> f.value == 0 || !IsDigit(s[f.value - 1])
  {
    var P := (i: nat) => UnitAt(s, i, unit);
    var f := FirstFrom(0, |s|, P);
    if f.Some? && f.value > 0 {
      var i := f.value;
      assert !P(i - 1);
      assert IsDigit(s[i - 1]) ==> UnitAt(s, i - 1, unit) by {
        if IsDigit(s[i - 1]) {
          assert RunEnd(s, i - 1) == RunEnd(s, i);
        }
      }
    }
  }

  /** What `time_report_command` is asked to do, in the order it tests the forms. */
  datatype TimeReportRequest = Enable | Disable | SetEvery(hours: nat, minutes: nat) | Usage

  function TimeReportRequestOf(body: string): TimeReportRequest {
    if Contains(body, "/時報 OK") then Enable
    else if Contains(body, "/時報 NO") then Disable
    else
      var h := UnitNumber(body, 'h');
      var m := UnitNumber(body, 'm');
      if h.None? && m.None? then Usage else SetEvery(h.GetOr(0), m.GetOr(0))
  }

  /** `hours * 60 + minutes`, a missing part counting as 0. */
  function TotalMinutes(hours: nat, minutes: nat): nat {
    hours * 60 + minutes
  }

  /** In `/時報 <n><unit>` the digits after the command are captured for that unit. */
  lemma UnitFound(n: nat, unit: char)
    requires !IsDigit(unit) && !IsSpace(unit)
    ensures UnitNumber("/時報 " + NatToString(n) + [unit], unit) == Some(n)
  {
    var s := "/時報 " + NatToString(n) + [unit];
    var k := 4 + |NatToString(n)|;
    NumberAt("/時報 ", n, [unit]);
    assert s[k] == unit && k + 1 == |s|;
    SkipNone(s, k);
    assert s[4] == NatToString(n)[0];
    assert UnitAt(s, 4, unit);
    forall i | 0 <= i < 4 ensures !UnitAt(s, i, unit) {
      assert s[i] == "/時報 "[i];
    }
    FirstFromIs(0, |s|, (i: nat) => UnitAt(s, i, unit), 4);
  }

  /** In `/時報 <n><unit>` nothing is captured for another unit letter. */
  lemma UnitMissing(n: nat, unit: char, other: char)
    requires other != unit && other != '/' && other != '時' && other != '報' && other != ' ' && !IsDigit(other)
    ensures UnitNumber("/時報 " + NatToString(n) + [unit], other) == None
  {
    var s := "/時報 " + NatToString(n) + [unit];
    var k := 4 + |NatToString(n)|;
    assert |s| == k + 1 && s[k] == unit;
    forall j | 0 <= j < |s| ensures s[j] != other {
      if j < 4 {
        assert s[j] == "/時報 "[j];
      } else if j < k {
        assert s[j] == NatToString(n)[j - 4];
      }
    }
    forall i: nat | i < |s| ensures !UnitAt(s, i, other) {
    }
  }

  /** In `/時報 <n><unit>` only the digits after the command can match, and nothing matches another unit. */
  lemma UnitFormParts(n: nat, unit: char, other: char)
    requires unit != other && !IsDigit(unit) && !IsSpace(unit)
    requires unit != '/' && unit != '時' && unit != '報' && other != '時' && other != '報' && other != ' ' && other != '/' && !IsDigit(other)
    ensures var s := "/時報 " + NatToString(n) + [unit];
            UnitNumber(s, unit) == Some(n) && UnitNumber(s, other) == None &&
            !Contains(s, "/時報 OK") && !Contains(s, "/時報 NO")
  {
    var s := "/時報 " + NatToString(n) + [unit];
    var k := 4 + |NatToString(n)|;
    UnitFound(n, unit);
    UnitMissing(n, unit, other);
    NumberAt("/時報 ", n, [unit]);
    assert s[..4] == "/時報 " && s[4..k] == NatToString(n) && k + 1 == |s| && s[k] == unit;
    forall j | 4 <= j <= k ensures s[j] != '/' {
      if j < k {
        assert s[j] == NatToString(n)[j - 4];
      }
    }
    Absent(s, "/時報 OK", k);
    Absent(s, "/時報 NO", k);
  }

  /** A six-character literal `/時報 ..` ending in two letters does not occur in `/時報 <digits><unit>`. */
  lemma Absent(s: string, lit: string, k: nat)
    requires |lit| == 6 && lit[..4] == "/時報 " && !IsDigit(lit[4]) && lit[4] != 'h' && lit[4] != 'm'
    requires k + 1 == |s| && 4 < k && s[..4] == "/時報 " && AllDigits(s[4..k]) && !IsDigit(s[k])
    requires forall j :: 4 <= j <= k ==> s[j] != '/'
    ensures !Contains(s, lit)
  {
    forall i | 0 <= i <= |s| ensures !OccursAt(s, lit, i) {
      if i + 6 <= |s| {
        if i == 0 {
          assert s[4] == s[4..k][0];
          assert s[i..i + 6][4] == s[4];
        } else if i < 4 {
          assert s[i] == "/時報 "[i];
          assert s[i..i + 6][0] == s[i];
        } else {
          assert s[i..i + 6][0] == s[i];
        }
      }
    }
    ContainsIff(s, lit);
  }

  /** `/時報 <h>h` asks for an interval of `h` hours, `/時報 <m>m` for one of `m` minutes. */
  lemma IntervalForms(n: nat)
    ensures TimeReportRequestOf("/時報 " + NatToString(n) + "h") == SetEvery(n, 0)
    ensures TimeReportRequestOf("/時報 " + NatToString(n) + "m") == SetEvery(0, n)
  {
    UnitFormParts(n, 'h', 'm');
    UnitFormParts(n, 'm', 'h');
  }

  predicate HasRoom(rows: seq<HourlyRow>, room: nat) {
    exists i :: 0 <= i < |rows| && rows[i].room == room
  }

  /** No room has two rows of `hourly_report_rooms`. */
  predicate OneRowPerRoom(rows: seq<HourlyRow>) {
    forall i, j :: 0 <= i < j < |rows| ==> rows[i].room != rows[j].room
  }

  /** `delete().eq('room_id', room)`. */
  function WithoutHourly(rows: seq<HourlyRow>, room: nat): (r: seq<HourlyRow>)
    ensures forall x :: x in r <==> x in rows && x.room != room
  {
    if rows == [] then []
    else
      var p := rows[..|rows| - 1];
      var last := rows[|rows| - 1];
      assert rows == p + [last];
      WithoutHourly(p, room) + (if last.room == room then [] else [last])
  }

  /** `update({'interval_minutes': interval}).eq('room_id', room)`. */
  function SetInterval(rows: seq<HourlyRow>, room: nat, interval: int): seq<HourlyRow> {
    seq(|rows|, (i: nat) requires i < |rows| => if rows[i].room == room then HourlyRow(room, interval) else rows[i])
  }

  /** Turning the notice off leaves no row for the room, keeps every other row, and keeps one row per room. */
  lemma {:induction false} DisableProperties(rows: seq<HourlyRow>, room: nat)
    ensures !HasRoom(WithoutHourly(rows, room), room)
    ensures forall x :: x in rows && x.room != room ==> x in WithoutHourly(rows, room)
    ensures OneRowPerRoom(rows) ==> OneRowPerRoom(WithoutHourly(rows, room))
  {
    var r := WithoutHourly(rows, room);
    forall i | 0 <= i < |r| ensures r[i].room != room {
      assert r[i] in r;
    }
    if rows != [] && OneRowPerRoom(rows) {
      var p := rows[..|rows| - 1];
      var last := rows[|rows| - 1];
      DisableProperties(p, room);
      assert OneRowPerRoom(WithoutHourly(p, room));
      if last.room != room {
        forall x | x in WithoutHourly(p, room) ensures x.room != last.room {
          var j :| 0 <= j < |p| && p[j] == x;
          assert rows[j] == x;
        }
      }
    }
  }

  /**
   * Setting an interval gives every row of the room that interval, changes no other row,
   * keeps one row per room, and (as an insert when no row matched) leaves the room with a row.
   */
  lemma SetIntervalProperties(rows: seq<HourlyRow>, room: nat, interval: int)
    ensures HasRoom(rows, room) ==> HasRoom(SetInterval(rows, room, interval), room)
    ensures forall i :: 0 <= i < |rows| && rows[i].room == room ==> SetInterval(rows, room, interval)[i].interval == interval
    ensures forall i :: 0 <= i < |rows| && rows[i].room != room ==> SetInterval(rows, room, interval)[i] == rows[i]
    ensures OneRowPerRoom(rows) ==> OneRowPerRoom(SetInterval(rows, room, interval))
    ensures !HasRoom(rows, room) && OneRowPerRoom(rows) ==> OneRowPerRoom(rows + [HourlyRow(room, interval)])
  {
    if HasRoom(rows, room) {
      var i :| 0 <= i < |rows| && rows[i].room == room;
      assert SetInterval(rows, room, interval)[i].room == room;
    }
  }

  /** What `time_report_command` does to the hourly-report table and the chat. */
  twostate predicate TimeReportEffect(db: Store, chat: Chat, room: nat, body: string)
    reads db, chat
  {
    (var req := TimeReportRequestOf(body);
     (req.Usage? || (req.SetEvery? && TotalMinutes(req.hours, req.minutes) == 0) || !db.connected) ==>
       db.hourlyReportRooms == old(db.hourlyReportRooms)) &&
    (|chat.sent| == |old(chat.sent)| + 1 && chat.sent[..|old(chat.sent)|] == old(chat.sent)) &&
    (var req := TimeReportRequestOf(body);
     var reply := chat.sent[|chat.sent| - 1].content;
     chat.sent[|chat.sent| - 1].room == NatToString(room) &&
     (req.Usage? ==> reply == TimeReportUsage) &&
     (req.SetEvery? && TotalMinutes(req.hours, req.minutes) == 0 ==> reply == IntervalNotPositive) &&
     (!req.Usage? && !(req.SetEvery? && TotalMinutes(req.hours, req.minutes) == 0) && !db.connected ==>
        reply == DatabaseUnavailable)) &&
    (var req := TimeReportRequestOf(body);
     var reply := chat.sent[|chat.sent| - 1].content;
     var rows := old(db.hourlyReportRooms);
     db.connected && req.Enable? ==>
       if HasRoom(rows, room) then db.hourlyReportRooms == rows && reply == HourlyAlreadyEnabled
       else db.hourlyReportRooms == rows + [HourlyRow(room, 60)] && reply == HourlyEnabled) &&
    (var req := TimeReportRequestOf(body);
     db.connected && req.Disable? ==>
       db.hourlyReportRooms == WithoutHourly(old(db.hourlyReportRooms), room) &&
       chat.sent[|chat.sent| - 1].content == HourlyDisabled) &&
    (var req := TimeReportRequestOf(body);
     var rows := old(db.hourlyReportRooms);
     db.connected && req.SetEvery? && TotalMinutes(req.hours, req.minutes) > 0 ==>
       var total := TotalMinutes(req.hours, req.minutes);
       db.hourlyReportRooms == (if HasRoom(rows, room) then SetInterval(rows, room, total)
                                else rows + [HourlyRow(room, total)]) &&
       chat.sent[|chat.sent| - 1].content == IntervalSet(req.hours, req.minutes))
  }

  /**
   * `time_report_command`. `OK` adds the room with an interval of 60 unless it has a row;
   * `NO` deletes the room's rows; an interval of at least one minute updates the room's
   * rows, or inserts one when none matched; a non-positive interval writes nothing. A
   * failing store changes nothing and posts the error notice.
   */
  method TimeReportCommand(db: Store, chat: Chat, room: nat, body: string)
    modifies db`hourlyReportRooms, chat
    ensures TimeReportEffect(db, chat, room, body)
  {
    var here := NatToString(room);
    var req := TimeReportRequestOf(body);
    match req {
      case Enable =>
        if !db.connected {
          chat.sent := chat.sent + [Post(here, DatabaseUnavailable)];
          return;
        }
        if !HasRoom(db.hourlyReportRooms, room) {
          db.hourlyReportRooms := db.hourlyReportRooms + [HourlyRow(room, 60)];
          chat.sent := chat.sent + [Post(here, HourlyEnabled)];
        } else {
          chat.sent := chat.sent + [Post(here, HourlyAlreadyEnabled)];
        }
      case Disable =>
        if !db.connected {
          chat.sent := chat.sent + [Post(here, DatabaseUnavailable)];
          return;
        }
        db.hourlyReportRooms := WithoutHourly(db.hourlyReportRooms, room);
        chat.sent := chat.sent + [Post(here, HourlyDisabled)];
      case SetEvery(hours, minutes) =>
        var total := hours * 60 + minutes;
        if total <= 0 {
          chat.sent := chat.sent + [Post(here, IntervalNotPositive)];
          return;
        }
        if !db.connected {
          chat.sent := chat.sent + [Post(here, DatabaseUnavailable)];
          return;
        }
        var matched := HasRoom(db.hourlyReportRooms, room);
        db.hourlyReportRooms := SetInterval(db.hourlyReportRooms, room, total);
        if !matched {
          db.hourlyReportRooms := db.hourlyReportRooms + [HourlyRow(room, total)];
        }
        chat.sent := chat.sent + [Post(here, IntervalSet(hours, minutes))];
      case Usage =>
        chat.sent := chat.sent + [Post(here, TimeReportUsage)];
    }
  }

  // ---------------------------------------------------------------------------
  // `おみくじ`: one draw per user and day
  // ---------------------------------------------------------------------------

  /** `select('last_drawn_date').eq('user_id', user)`: the user's rows, in table order. */
  function DrawsOf(rows: seq<OmikujiRow>, user: nat): (r: seq<OmikujiRow>)
    ensures forall x :: x in r <==> x in rows && x.user == user
  {
    if rows == [] then []
    else
      var p := rows[..|rows| - 1];
      var last := rows[|rows| - 1];
      assert rows == p + [last];
      DrawsOf(p, user) + (if last.user == user then [last] else [])
  }

  /** The first of the user's rows says `today`. */
  predicate AlreadyDrawn(rows: seq<OmikujiRow>, user: nat, today: Date) {
    var d := DrawsOf(rows, user);
    d != [] && d[0].lastDrawn == today
  }

  /** The table after a draw: the user's rows updated to `today`, or a new row when there was none. */
  function AfterDraw(rows: seq<OmikujiRow>, user: nat, today: Date): seq<OmikujiRow> {
    if DrawsOf(rows, user) != [] then Redrawn(rows, user, today)
    else rows + [OmikujiRow(user, today)]
  }

  /** `.update({'last_drawn_date': today}).eq('user_id', user)`: every row of the user now says `today`. */
  function Redrawn(rows: seq<OmikujiRow>, user: nat, today: Date): seq<OmikujiRow> {
    seq(|rows|, (i: nat) requires i < |rows| => if rows[i].user == user then OmikujiRow(user, today) else rows[i])
  }

  predicate OneRowPerUser(rows: seq<OmikujiRow>) {
    forall i, j :: 0 <= i < j < |rows| ==> rows[i].user != rows[j].user
  }

  lemma {:induction false} DrawsOfAppend(rows: seq<OmikujiRow>, x: OmikujiRow, user: nat)
    ensures DrawsOf(rows + [x], user) == DrawsOf(rows, user) + (if x.user == user then [x] else [])
  {
    assert (rows + [x])[..|rows|] == rows;
  }

  lemma {:induction false} DrawsOfUpdated(rows: seq<OmikujiRow>, user: nat, today: Date, u: nat)
    ensures DrawsOf(Redrawn(rows, user, today), u) ==
            if u == user then seq(|DrawsOf(rows, u)|, (i: nat) => OmikujiRow(user, today)) else DrawsOf(rows, u)
  {
    if rows != [] {
      var p := rows[..|rows| - 1];
      var r := Redrawn(rows, user, today);
      assert r[..|r| - 1] == Redrawn(p, user, today);
      DrawsOfUpdated(p, user, today, u);
    }
  }

  /** After a draw the user's first row says `today`, so a second draw on the same day is refused. */
  lemma DrawMarksToday(rows: seq<OmikujiRow>, user: nat, today: Date)
    ensures AlreadyDrawn(AfterDraw(rows, user, today), user, today)
  {
    if DrawsOf(rows, user) != [] {
      DrawsOfUpdated(rows, user, today, user);
    } else {
      DrawsOfAppend(rows, OmikujiRow(user, today), user);
    }
  }

  /** A draw leaves every other user's rows as they were. */
  lemma DrawKeepsOthers(rows: seq<OmikujiRow>, user: nat, today: Date, u: nat)
    requires u != user
    ensures DrawsOf(AfterDraw(rows, user, today), u) == DrawsOf(rows, u)
  {
    if DrawsOf(rows, user) != [] {
      DrawsOfUpdated(rows, user, today, u);
    } else {
      DrawsOfAppend(rows, OmikujiRow(user, today), u);
    }
  }

  /** A table with one row per user keeps one row per user after a draw. */
  lemma DrawKeepsOneRow(rows: seq<OmikujiRow>, user: nat, today: Date)
    requires OneRowPerUser(rows)
    ensures OneRowPerUser(AfterDraw(rows, user, today))
  {
    if DrawsOf(rows, user) == [] {
      forall i | 0 <= i < |rows| ensures rows[i].user != user {
        assert rows[i] in rows;
      }
    }
  }

  function Repeat(x: string, n: nat): (r: seq<string>)
    ensures |r| == n && forall i :: 0 <= i < n ==> r[i] == x
    ensures multiset(r) == multiset{}[x := n]
  {
    if n == 0 then [] else Repeat(x, n - 1) + [x]
  }

  /** The outcomes `random.choice` picks from, with their multiplicities. */
  function Fortunes(): seq<string> {
    Repeat("大吉", 10) + Repeat("中吉", 20) + Repeat("小吉", 30) + Repeat("吉", 20) +
    Repeat("末吉", 10) + Repeat("凶", 5) + Repeat("大凶", 5)
  }

  /** 100 outcomes: 大吉 10, 中吉 20, 小吉 30, 吉 20, 末吉 10, 凶 5 and 大凶 5. */
  lemma FortuneWeights()
    ensures |Fortunes()| == 100
    ensures multiset(Fortunes()) ==
            multiset{}["大吉" := 10] + multiset{}["中吉" := 20] + multiset{}["小吉" := 30] +
            multiset{}["吉" := 20] + multiset{}["末吉" := 10] + multiset{}["凶" := 5] + multiset{}["大凶" := 5]
  {
    var a, b, c, d := Repeat("大吉", 10), Repeat("中吉", 20), Repeat("小吉", 30), Repeat("吉", 20);
    var e, f, g := Repeat("末吉", 10), Repeat("凶", 5), Repeat("大凶", 5);
    assert Fortunes() == a + b + c + d + e + f + g;
  }

  /** Entry `k` of the outcome list, read off the runs it is built from. */
  function Fortune(k: nat): string {
    if k < 10 then "大吉"
    else if k < 30 then "中吉"
    else if k < 60 then "小吉"
    else if k < 80 then "吉"
    else if k < 90 then "末吉"
    else if k < 95 then "凶"
    else "大凶"
  }

  /** Every entry of the outcome list is the one `Fortune` names. */
  lemma FortuneTable()
    ensures forall k :: 0 <= k < |Fortunes()| ==> Fortunes()[k] == Fortune(k)
  {
    var a, b, c, d := Repeat("大吉", 10), Repeat("中吉", 20), Repeat("小吉", 30), Repeat("吉", 20);
    var e, f, g := Repeat("末吉", 10), Repeat("凶", 5), Repeat("大凶", 5);
    var s := a + b + c + d + e + f + g;
    assert Fortunes() == s;
    forall k | 0 <= k < |s| ensures s[k] == Fortune(k) {
      RunAt(a, b, c, d, e, f, g, k);
    }
  }

  /** Index `k` of seven joined runs falls in the run its offset names. */
  lemma RunAt(a: seq<string>, b: seq<string>, c: seq<string>, d: seq<string>, e: seq<string>, f: seq<string>, g: seq<string>, k: nat)
    requires a == Repeat("大吉", 10) && b == Repeat("中吉", 20) && c == Repeat("小吉", 30) && d == Repeat("吉", 20)
    requires e == Repeat("末吉", 10) && f == Repeat("凶", 5) && g == Repeat("大凶", 5)
    requires k < 100
    ensures (a + b + c + d + e + f + g)[k] == Fortune(k)
  {
    var p6 := a + b + c + d + e + f;
    var p5 := a + b + c + d + e;
    var p4 := a + b + c + d;
    var p3 := a + b + c;
    if k >= 95 { assert (p6 + g)[k] == g[k - 95]; }
    else if k >= 90 { assert (p6 + g)[k] == p6[k] == f[k - 90]; }
    else if k >= 80 { assert (p6 + g)[k] == p6[k] == p5[k] == e[k - 80]; }
    else if k >= 60 { assert (p6 + g)[k] == p6[k] == p5[k] == p4[k] == d[k - 60]; }
    else if k >= 30 { assert (p6 + g)[k] == p6[k] == p5[k] == p4[k] == p3[k] == c[k - 30]; }
    else if k >= 10 { assert (p6 + g)[k] == p6[k] == p5[k] == p4[k] == p3[k] == (a + b)[k] == b[k - 10]; }
    else { assert (p6 + g)[k] == p6[k] == p5[k] == p4[k] == p3[k] == (a + b)[k] == a[k]; }
  }

  /** What `omikuji_command` does to the draw history and the chat. */
  twostate predicate OmikujiEffect(db: Store, chat: Chat, room: nat, account: nat, today: Date, pick: nat)
    reads db, chat
  {
    (!db.connected || AlreadyDrawn(old(db.omikujiHistory), account, today) ==>
       db.omikujiHistory == old(db.omikujiHistory)) &&
    (!db.connected ==> chat.sent == old(chat.sent) + [Post(NatToString(room), DatabaseUnavailable)]) &&
    (db.connected && AlreadyDrawn(old(db.omikujiHistory), account, today) ==>
       chat.sent == old(chat.sent) + [Post(NatToString(room), OmikujiAlreadyDrawn)]) &&
    (db.connected && !AlreadyDrawn(old(db.omikujiHistory), account, today) ==>
       db.omikujiHistory == AfterDraw(old(db.omikujiHistory), account, today) &&
       chat.sent == old(chat.sent) + [Post(NatToString(room), OmikujiResult(Fortune(pick % 100)))])
  }

  /**
   * `omikuji_command`. `pick` stands for `random.choice`: any number selects entry
   * `pick % 100` of `Fortunes()`, which is `Fortune(pick % 100)` by `FortuneTable`. A user whose first row says `today` is refused and nothing
   * changes; otherwise the table becomes `AfterDraw` and the outcome is posted. A failing
   * store changes nothing and posts the error notice.
   */
  method OmikujiCommand(db: Store, chat: Chat, room: nat, account: nat, today: Date, pick: nat)
    modifies db`omikujiHistory, chat
    ensures OmikujiEffect(db, chat, room, account, today, pick)
  {
    var here := NatToString(room);
    if !db.connected {
      chat.sent := chat.sent + [Post(here, DatabaseUnavailable)];
      return;
    }
    var data := DrawsOf(db.omikujiHistory, account);
    if data != [] && data[0].lastDrawn == today {
      chat.sent := chat.sent + [Post(here, OmikujiAlreadyDrawn)];
      return;
    }
    var result := Fortune(pick % 100);
    if data != [] {
      db.omikujiHistory := Redrawn(db.omikujiHistory, account, today);
    } else {
      db.omikujiHistory := db.omikujiHistory + [OmikujiRow(account, today)];
    }
    chat.sent := chat.sent + [Post(here, OmikujiResult(result))];
  }

  // ---------------------------------------------------------------------------
  // `/ranking [room] [YYYY/MM/DD]`
  // ---------------------------------------------------------------------------

  /** `\d{4}/\d{2}/\d{2}` matches at `i`. */
  predicate DateAt(s: string, i: nat) {
    i + 10 <= |s| && AllDigits(s[i..i + 4]) && s[i + 4] == '/' &&
    AllDigits(s[i + 5..i + 7]) && s[i + 7] == '/' && AllDigits(s[i + 8..i + 10])
  }

  /** Where the leftmost date starts. */
  function FindDate(s: string): (r: Option<nat>)
    ensures r.Some? ==> DateAt(s, r.value)
  {
    FirstFrom(0, |s|, (i: nat) => DateAt(s, i))
  }

  /** `date.replace('/', '')` for a matched date. */
  function DateDigits(date: string): string
    requires |date| == 10
  {
    date[..4] + date[5..7] + date[8..10]
  }

  /** `re.search(r'\d+', s)`: where the leftmost digit run starts. */
  function FirstRun(s: string): (r: Option<nat>)
    ensures r.Some? ==> r.value < |s| && IsDigit(s[r.value])
  {
    FirstFrom(0, |s|, (i: nat) => i < |s| && IsDigit(s[i]))
  }

  /**
   * The room the code as written reads from the arguments: the leftmost digit run, unless it
   * equals the date's digits. The leftmost run of `/ranking 2025/08/21` is `2025`, which never
   * equals `20250821`, so a lone date makes its year the room.
   */
  function AsWrittenTarget(s: string, room: nat): nat {
    match FirstRun(s)
    case None => room
    case Some(i) =>
      var candidate := s[i..RunEnd(s, i)];
      var d := FindDate(s);
      if d.None? || candidate != DateDigits(s[d.value..d.value + 10]) then DigitsValue(candidate) else room
  }

  /** A digit run starts at `i` and lies wholly outside the date found, if any. */
  predicate RoomRunAt(s: string, i: nat) {
    RunStart(s, i) &&
    match FindDate(s)
    case None => true
    case Some(d) => RunEnd(s, i) <= d || d + 10 <= i
  }

  /** The room as intended: the leftmost number that is not part of the date. */
  function Target(s: string, room: nat): nat {
    match FirstFrom(0, |s|, (i: nat) => RoomRunAt(s, i))
    case None => room
    case Some(i) => DigitsValue(s[i..RunEnd(s, i)])
  }

  /** A string of the form `YYYY/MM/DD`. */
  predicate DateForm(date: string) {
    |date| == 10 && DateAt(date, 0)
  }

  lemma PrefixNoDigit(s: string)
    requires |s| >= 9 && s[..9] == "/ranking "
    ensures forall j :: 0 <= j < 9 ==> !IsDigit(s[j]) && !DateAt(s, j)
  {
    forall j | 0 <= j < 9 ensures !IsDigit(s[j]) && !DateAt(s, j) {
      assert s[j] == s[..9][j];
      if j + 4 <= |s| {
        assert s[j..j + 4][0] == s[j];
      }
    }
  }

  /** A date placed after any prefix is a date at the prefix's length. */
  lemma DateAtJoin(p: string, date: string, tail: string)
    requires DateForm(date)
    ensures DateAt(p + date + tail, |p|)
  {
    var s := p + date + tail;
    var k := |p|;
    assert s[k..k + 4] == date[0..4];
    assert s[k + 5..k + 7] == date[5..7];
    assert s[k + 8..k + 10] == date[8..10];
    assert s[k + 4] == date[4] && s[k + 7] == date[7];
  }

  /** In `/ranking <date>...` the date is found right after the command. */
  lemma DateAfterCommand(date: string, tail: string)
    requires DateForm(date)
    ensures FindDate("/ranking " + date + tail) == Some(9)
  {
    var s := "/ranking " + date + tail;
    DateAtJoin("/ranking ", date, tail);
    assert s[..9] == "/ranking ";
    PrefixNoDigit(s);
    FirstFromIs(0, |s|, (i: nat) => DateAt(s, i), 9);
  }

  /** In `/ranking <n> <date>` the date is found after the number. */
  lemma DateAfterNumber(n: nat, date: string)
    requires DateForm(date)
    ensures var s := "/ranking " + NatToString(n) + " " + date;
            FindDate(s) == Some(10 + |NatToString(n)|)
  {
    var s := "/ranking " + NatToString(n) + " " + date;
    var k := 10 + |NatToString(n)|;
    DateAtJoin("/ranking " + NatToString(n) + " ", date, []);
    assert s == "/ranking " + NatToString(n) + " " + date + [];
    assert s[..9] == "/ranking ";
    PrefixNoDigit(s);
    assert s[k - 1] == ' ';
    forall j | 9 <= j < k ensures !DateAt(s, j) {
      if j + 4 < k - 1 {
        assert s[j + 4] == NatToString(n)[j + 4 - 9];
      } else if j + 4 >= k && j + 4 <= |s| {
        assert s[j..j + 4][k - 1 - j] == s[k - 1];
      }
    }
    FirstFromIs(0, |s|, (i: nat) => DateAt(s, i), k);
  }

  /** As written, `/ranking <YYYY/MM/DD>` takes the year as the room. */
  lemma AsWrittenDateOnly(date: string, room: nat)
    requires DateForm(date)
    ensures AsWrittenTarget("/ranking " + date, room) == DigitsValue(date[..4])
  {
    var s := "/ranking " + date;
    assert s == "/ranking " + date + [];
    DateAfterCommand(date, []);
    assert s[..9] == "/ranking ";
    PrefixNoDigit(s);
    assert s[9] == date[0] && IsDigit(date[..4][0]);
    FirstFromIs(0, |s|, (i: nat) => i < |s| && IsDigit(s[i]), 9);
    assert s[9..13] == date[..4];
    assert s[13] == date[4];
    RunEndAt(s, 9, 13);
    assert |DateDigits(s[9..19])| == 8;
  }

  /** `/ranking 2025/08/21` asks, as written, for room 2025. */
  lemma AsWrittenExample(room: nat)
    ensures AsWrittenTarget("/ranking 2025/08/21", room) == 2025
  {
    var date := "2025/08/21";
    assert date[..4] == "2025" && date[5..7] == "08" && date[8..10] == "21";
    assert DateForm(date);
    AsWrittenDateOnly(date, room);
    var s := "/ranking " + date;
    assert s == "/ranking 2025/08/21" by {
      forall i | 0 <= i < 19 ensures s[i] == "/ranking 2025/08/21"[i] {
      }
    }
    Year2025();
  }

  lemma Year2025()
    ensures AllDigits("2025") && DigitsValue("2025") == 2025
  {
    assert "2025"[..3] == "202";
    assert "202"[..2] == "20";
    assert "20"[..1] == "2";
    assert "2"[..0] == "";
    assert DigitsValue("2") == 2;
    assert DigitsValue("20") == 20;
    assert DigitsValue("202") == 202;
  }

  /** A lone date leaves the room where the command was sent. */
  lemma TargetDateOnly(date: string, room: nat)
    requires DateForm(date)
    ensures Target("/ranking " + date, room) == room
  {
    var s := "/ranking " + date;
    assert s == "/ranking " + date + [];
    DateAfterCommand(date, []);
    assert s[..9] == "/ranking ";
    PrefixNoDigit(s);
    forall i: nat | i < |s| ensures !RoomRunAt(s, i) {
      if 9 <= i && RunStart(s, i) {
        assert RunEnd(s, i) > 9;
      }
    }
  }

  /** `/ranking <date> <n>` asks for room `n`. */
  lemma TargetDateThenRoom(date: string, n: nat, room: nat)
    requires DateForm(date)
    ensures Target("/ranking " + date + " " + NatToString(n), room) == n
  {
    var s := "/ranking " + date + " " + NatToString(n);
    assert s == "/ranking " + date + (" " + NatToString(n));
    DateAfterCommand(date, " " + NatToString(n));
    assert s[..9] == "/ranking ";
    PrefixNoDigit(s);
    NumberAt("/ranking " + date + " ", n, []);
    assert s == "/ranking " + date + " " + NatToString(n) + [];
    assert s[19] == ' ';
    assert RoomRunAt(s, 20);
    forall i: nat | i < 20 ensures !RoomRunAt(s, i) {
      if 9 <= i < 19 && RunStart(s, i) {
        assert RunEnd(s, i) > 9;
      }
    }
    FirstFromIs(0, |s|, (i: nat) => RoomRunAt(s, i), 20);
  }

  /** `/ranking <n> <date>` asks for room `n`. */
  lemma TargetRoomThenDate(n: nat, date: string, room: nat)
    requires DateForm(date)
    ensures Target("/ranking " + NatToString(n) + " " + date, room) == n
  {
    var pre, d := "/ranking ", NatToString(n);
    var s := pre + d + " " + date;
    DateAfterNumber(n, date);
    assert s[..9] == pre;
    PrefixNoDigit(s);
    AppendAssoc(pre + d, " ", date);
    NumberAt(pre, n, " " + date);
    assert s[8] == ' ' && s[9] == d[0];
    assert RoomRunAt(s, 9);
    FirstFromIs(0, |s|, (i: nat) => RoomRunAt(s, i), 9);
  }

  predicate LeapYear(y: nat) {
    y % 4 == 0 && (y % 100 != 0 || y % 400 == 0)
  }

  function DaysIn(y: nat, m: nat): nat {
    if m == 2 then (if LeapYear(y) then 29 else 28)
    else if m == 4 || m == 6 || m == 9 || m == 11 then 30
    else 31
  }

  /** `datetime.strptime(date, '%Y/%m/%d')` succeeds: year 1 or later, a month, a day of that month. */
  predicate ValidDate(date: string)
    requires DateForm(date)
  {
    var y := DigitsValue(date[..4]);
    var m := DigitsValue(date[5..7]);
    var d := DigitsValue(date[8..10]);
    1 <= y && 1 <= m <= 12 && 1 <= d <= DaysIn(y, m)
  }

  /** `.date().isoformat()` of a parsed `YYYY/MM/DD`. */
  function IsoDate(date: string): (r: Date)
    requires DateForm(date)
    ensures |r| == 10 && r[4] == '-' && r[7] == '-'
    ensures forall i :: 0 <= i < 10 && i != 4 && i != 7 ==> r[i] == date[i]
  {
    date[..4] + "-" + date[5..7] + "-" + date[8..10]
  }

  lemma DateSlice(s: string, i: nat)
    requires DateAt(s, i)
    ensures DateForm(s[i..i + 10])
  {
    var t := s[i..i + 10];
    assert t[0..4] == s[i..i + 4];
    forall k | 0 <= k < 2 ensures IsDigit(t[5..7][k]) && IsDigit(t[8..10][k]) {
      assert t[5..7][k] == s[i + 5..i + 7][k];
      assert t[8..10][k] == s[i + 8..i + 10][k];
    }
  }

  /** `date_match.group(0)`: the text of the leftmost date. */
  function FoundDate(s: string): (r: Option<string>)
    ensures r.Some? <==> FindDate(s).Some?
    ensures r.Some? ==> DateForm(r.value) && r.value == s[FindDate(s).value..FindDate(s).value + 10]
  {
    match FindDate(s)
    case None => None
    case Some(d) => DateSlice(s, d); Some(s[d..d + 10])
  }

  /** What `/ranking` asks for: a bad date, or a room and a day. */
  datatype RankingRequest = BadDate | Query(room: nat, date: Date)

  /** With no argument, today in this room; otherwise the date found (if any) and the target room. */
  function RankingRequestOf(body: string, room: nat, today: Date): RankingRequest {
    if |Words(body)| <= 1 then Query(room, today)
    else match FoundDate(body)
      case None => Query(Target(body, room), today)
      case Some(date) =>
        if ValidDate(date) then Query(Target(body, room), IsoDate(date)) else BadDate
  }

  /** The date is refused exactly when `strptime` would raise. */
  lemma BadDateIff(body: string, room: nat, today: Date)
    ensures RankingRequestOf(body, room, today).BadDate? <==>
            |Words(body)| > 1 && FoundDate(body).Some? && !ValidDate(FoundDate(body).value)
  {
  }

  /** February has 29 days exactly in leap years: `2024/02/29` is a date, `2025/02/29` is not. */
  lemma LeapDay()
    ensures DateForm("2024/02/29") && ValidDate("2024/02/29")
    ensures DateForm("2025/02/29") && !ValidDate("2025/02/29")
  {
    assert "2024/02/29"[..4] == "2024" && "2024/02/29"[5..7] == "02" && "2024/02/29"[8..10] == "29";
    assert "2025/02/29"[..4] == "2025" && "2025/02/29"[5..7] == "02" && "2025/02/29"[8..10] == "29";
  }

  /** `sum(row['message_count'] ...)` over the user's rows of the room. */
  function UserSum(rows: seq<UserCountRow>, user: nat, room: nat): nat {
    if rows == [] then 0
    else
      var last := rows[|rows| - 1];
      UserSum(rows[..|rows| - 1], user, room) + (if last.user == user && last.room == room then last.count else 0)
  }

  /** `sum(item['message_count'] ...)` over all rows of the room. */
  function RoomSum(rows: seq<UserCountRow>, room: nat): nat {
    if rows == [] then 0
    else
      var last := rows[|rows| - 1];
      RoomSum(rows[..|rows| - 1], room) + (if last.room == room then last.count else 0)
  }

  /** A row's count is part of its user's total, which is part of the room's total. */
  lemma {:induction false} SumBounds(rows: seq<UserCountRow>, user: nat, room: nat)
    ensures forall x :: x in rows && x.user == user && x.room == room ==> x.count <= UserSum(rows, user, room)
    ensures UserSum(rows, user, room) <= RoomSum(rows, room)
  {
    if rows != [] {
      var p := rows[..|rows| - 1];
      SumBounds(p, user, room);
      assert rows == p + [rows[|rows| - 1]];
    }
  }

  /** `user_names.get(user, f"ユーザーID {user}")`. */
  function DisplayName(members: seq<Member>, user: nat): string {
    match NameIn(members, user)
    case Some(name) => name
    case None => "ユーザーID " + NatToString(user)
  }

  function UserBlock(rank: nat, name: string, day: nat, total: nat): string {
    NatToString(rank) + "位: " + name + "さん\n" +
    "  - 当日メッセージ数: " + NatToString(day) + "\n" +
    "  - 累計メッセージ数: " + NatToString(total) + "\n"
  }

  /** One block per row of the top ten, numbered from 1. */
  function Blocks(top: seq<UserCountRow>, members: seq<Member>, rows: seq<UserCountRow>, room: nat): (r: seq<string>)
    ensures |r| == |top|
  {
    seq(|top|, (i: nat) requires i < |top| =>
      UserBlock(i + 1, DisplayName(members, top[i].user), top[i].count, UserSum(rows, top[i].user, room)))
  }

  function RankingText(roomName: string, date: Date, blocks: seq<string>, roomTotal: nat): string {
    roomName + "の" + date + "個人メッセージ数ランキング\n---\n" +
    (Concat(blocks) + "\n部屋全体の累計メッセージ数: " + NatToString(roomTotal))
  }

  /**
   * The figures of the ranking: at most ten users, ordered by the day's count, each day's
   * count within the user's total and each user's total within the room's.
   */
  lemma RankingFigures(rows: seq<UserCountRow>, room: nat, date: Date)
    ensures var top := Top(rows, room, date, 10);
            |top| <= 10 &&
            (forall i, j :: 0 <= i < j < |top| ==> top[i].count >= top[j].count) &&
            forall i :: 0 <= i < |top| ==>
              top[i].count <= UserSum(rows, top[i].user, room) <= RoomSum(rows, room)
  {
    var top := Top(rows, room, date, 10);
    TopShape(rows, room, date, 10);
    TopMembers(rows, room, date, 10);
    forall i, j | 0 <= i < j < |top| ensures top[i].count >= top[j].count {
      assert UserCount(top[i]) >= UserCount(top[j]);
    }
    forall i | 0 <= i < |top| ensures top[i].count <= UserSum(rows, top[i].user, room) <= RoomSum(rows, room) {
      assert top[i] in top;
      SumBounds(rows, top[i].user, room);
    }
  }

  /** The loop of `ranking_command` that appends one block per ranked row. */
  method RankingList(top: seq<UserCountRow>, members: seq<Member>, rows: seq<UserCountRow>, room: nat)
    returns (list: string)
    ensures list == Concat(Blocks(top, members, rows, room))
  {
    ghost var blocks := Blocks(top, members, rows, room);
    list := "";
    var i := 0;
    while i < |top|
      invariant i <= |top|
      invariant list == Concat(blocks[..i])
    {
      var item := top[i];
      var userName := DisplayName(members, item.user);
      var total := UserSum(rows, item.user, room);
      var block := UserBlock(i + 1, userName, item.count, total);
      assert block == blocks[i];
      ConcatPrefix(blocks, i);
      list := list + block;
      i := i + 1;
    }
    assert blocks[..|top|] == blocks;
  }

  /**
   * Whether `ranking_command` raises: a missing database client fails the query, and a
   * member list that is an error value fails when iterated, which happens only after the
   * room-info request succeeded on a non-empty ranking.
   */
  function RankingRaises(connected: bool, rows: seq<UserCountRow>, req: RankingRequest,
                         members: Option<seq<Member>>, roomName: Option<Option<string>>): bool {
    req.Query? && (!connected || (Top(rows, req.room, req.date, 10) != [] && roomName.Some? && members.None?))
  }

  /** What `ranking_command` posts: one reply to the asking room, or nothing when it raises. */
  twostate predicate RankingEffect(db: Store, chat: Chat, room: nat, body: string, today: Date,
                                   members: Option<seq<Member>>, roomName: Option<Option<string>>)
    reads db, chat
  {
    var req := RankingRequestOf(body, room, today);
    var rows := db.userMessageCounts;
    (RankingRaises(db.connected, rows, req, members, roomName) ==> chat.sent == old(chat.sent)) &&
    (req.BadDate? ==> chat.sent == old(chat.sent) + [Post(NatToString(room), BadRankingDate)]) &&
    (req.Query? && db.connected && Top(rows, req.room, req.date, 10) == [] ==>
       chat.sent == old(chat.sent) + [Post(NatToString(room), NoMessagesFor(req.room, req.date))]) &&
    (req.Query? && db.connected && Top(rows, req.room, req.date, 10) != [] && roomName.None? ==>
       chat.sent == old(chat.sent) + [Post(NatToString(room), RoomInfoFailed(req.room))]) &&
    (req.Query? && db.connected && Top(rows, req.room, req.date, 10) != [] && members.Some? && roomName.Some? ==>
       chat.sent == old(chat.sent) + [Post(NatToString(room), Text(RankingText(
         roomName.value.GetOr("取得失敗"), req.date,
         Blocks(Top(rows, req.room, req.date, 10), members.value, rows, req.room),
         RoomSum(rows, req.room))))])
  }

  /**
   * `ranking_command`. The reply goes to the room the command came from. `members` is the
   * member list of the target room (`None`: the call failed, and iterating its error value
   * raises); `roomName` is the room-info response (`None`: the request failed; `Some(None)`:
   * no name in it). The failed room-info request is caught before the member list is iterated.
   * `raised` reports an exception that escapes the handler.
   */
  method RankingCommand(db: Store, chat: Chat, room: nat, body: string, today: Date,
                        members: Option<seq<Member>>, roomName: Option<Option<string>>) returns (raised: bool)
    modifies chat
    ensures raised == RankingRaises(db.connected, db.userMessageCounts, RankingRequestOf(body, room, today), members, roomName)
    ensures RankingEffect(db, chat, room, body, today, members, roomName)
  {
    var here := NatToString(room);
    var req := RankingRequestOf(body, room, today);
    if req.BadDate? {
      chat.sent := chat.sent + [Post(here, BadRankingDate)];
      return false;
    }
    if !db.connected {
      return true;
    }
    var rows := db.userMessageCounts;
    var top := Top(rows, req.room, req.date, 10);
    if top == [] {
      chat.sent := chat.sent + [Post(here, NoMessagesFor(req.room, req.date))];
      return false;
    }
    if roomName.None? {
      chat.sent := chat.sent + [Post(here, RoomInfoFailed(req.room))];
      return false;
    }
    if members.None? {
      return true;
    }
    var name := roomName.value.GetOr("取得失敗");
    var title := name + "の" + req.date + "個人メッセージ数ランキング\n---\n";
    var list := RankingList(top, members.value, rows, req.room);
    list := list + "\n部屋全体の累計メッセージ数: " + NatToString(RoomSum(rows, req.room));
    chat.sent := chat.sent + [Post(here, Text(title + list))];
    return false;
  }
}
