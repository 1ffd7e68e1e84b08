/**
 * Local notifications about requests: their identifiers, the suppression of
 * "rejected" errors, the check that a request is not already on screen, and
 * the counter that groups repeated auto-approved requests into one
 * notification. The notification centre itself is I/O: what it holds is
 * passed in.
 */
module Notify {
  import opened Wrappers
  import opened CommitInfos
  import opened GitInfos
  import opened Requests
  import Silo

  // ---- decimal text of integers (Swift string interpolation of an Int) ----

  function DigitChar(d: nat): (c: char)
    requires d < 10
    ensures '0' <= c <= '9' && c as int - '0' as int == d
  {
    ('0' as int + d) as char
  }

  predicate IsDigits(s: string) {
    forall i | 0 <= i < |s| :: '0' <= s[i] <= '9'
  }

  /** Decimal digits of `n`, most significant first, without leading zeros. */
  function NatToString(n: nat): (s: string)
    ensures |s| >= 1 && IsDigits(s)
    ensures |s| > 1 ==> s[0] != '0'
    decreases n
  {
    if n < 10 then [DigitChar(n)] else NatToString(n / 10) + [DigitChar(n % 10)]
  }

  /** The number a string of decimal digits denotes. */
  function DigitsValue(s: string): nat
    requires IsDigits(s)
  {
    if |s| == 0 then 0 else DigitsValue(s[..|s| - 1]) * 10 + (s[|s| - 1] as int - '0' as int)
  }

  /** Reading the digits back gives the number. */
  lemma {:induction false} NatToStringValue(n: nat)
    ensures DigitsValue(NatToString(n)) == n
    decreases n
  {
    if n >= 10 {
      var s := NatToString(n);
      assert s[..|s| - 1] == NatToString(n / 10);
      NatToStringValue(n / 10);
    }
  }

  /** Swift's `"\(i)"`: a minus sign before the digits of a negative number. */
  function IntToString(i: int): (s: string)
    ensures |s| >= 1
    ensures i >= 0 ==> s == NatToString(i)
    ensures i < 0 ==> s == "-" + NatToString(-i)
  {
    if i < 0 then "-" + NatToString(-i) else NatToString(i)
  }

  /** Distinct numbers have distinct decimal texts. */
  lemma IntToStringInjective(a: int, b: int)
    requires IntToString(a) == IntToString(b)
    ensures a == b
  {
    if a >= 0 && b >= 0 {
      NatToStringValue(a);
      NatToStringValue(b);
    } else if a < 0 && b < 0 {
      assert NatToString(-a) == IntToString(a)[1..];
      assert NatToString(-b) == IntToString(b)[1..];
      NatToStringValue(-a);
      NatToStringValue(-b);
    }
  }

  // ---- identifiers --------------------------------------------------------

  /** `Request.notificationIdentifer`: the SSH display, else the git short display, else the request id. */
  function NotificationIdentifier(r: Request, commits: CommitDisplay, tags: TagSupport): (s: string)
    ensures r.sign.Some? ==> s == r.sign.value.display
    ensures r.sign.None? && r.gitSign.Some? ==> s == ShortDisplay(r.gitSign.value.git, commits, tags)
    ensures r.sign.None? && r.gitSign.None? ==> s == r.id
  {
    if r.sign.Some? then r.sign.value.display
    else if r.gitSign.Some? then ShortDisplay(r.gitSign.value.git, commits, tags)
    else r.id
  }

  /** `RequestNotificationIdentifier.init(request:session:)`. */
  function RequestNotificationIdentifier(r: Request, s: Session, commits: CommitDisplay, tags: TagSupport): (id: string)
    ensures id == s.id + "_" + NotificationIdentifier(r, commits, tags)
  {
    s.id + "_" + NotificationIdentifier(r, commits, tags)
  }

  /** `RequestNotificationIdentifier.with(count:)`. */
  function WithCount(id: string, count: int): (s: string)
    ensures s == id + "_" + IntToString(count)
  {
    id + "_" + IntToString(count)
  }

  /** Different counts give different identifiers, so each grouped notification replaces exactly its predecessor. */
  lemma WithCountInjective(id: string, a: int, b: int)
    requires WithCount(id, a) == WithCount(id, b)
    ensures a == b
  {
    var n := |id| + 1;
    assert IntToString(a) == WithCount(id, a)[n..];
    assert IntToString(b) == WithCount(id, b)[n..];
    IntToStringInjective(a, b);
  }

  // ---- notification contents ----------------------------------------------

  datatype Note = Note(identifier: string, title: string, subtitle: string, body: string)

  /** The subtitle and body shared by `present` and `presentApproved`. */
  function NoteSubtitle(r: Request): (s: string)
    ensures r.sign.Some? ==> s == "SSH Login"
    ensures r.sign.None? && r.gitSign.Some? ==> s == Subtitle(r.gitSign.value.git) + " Signature"
    ensures s == "" <==> r.sign.None? && r.gitSign.None?
  {
    if r.sign.Some? then "SSH Login"
    else if r.gitSign.Some? then Subtitle(r.gitSign.value.git) + " Signature"
    else ""
  }

  function NoteBody(r: Request, commits: CommitDisplay, tags: TagSupport): (s: string)
    ensures r.sign.Some? ==> s == r.sign.value.display
    ensures r.sign.None? && r.gitSign.Some? ==> s == ShortDisplay(r.gitSign.value.git, commits, tags)
    ensures r.sign.None? && r.gitSign.None? ==> s == "Unknown"
  {
    if r.sign.Some? then r.sign.value.display
    else if r.gitSign.Some? then ShortDisplay(r.gitSign.value.git, commits, tags)
    else "Unknown"
  }

  /**
   * `presentError` posts nothing for the user's own refusal; any other error
   * is posted under the session id joined to the message's hash value
   * (`messageHash`, Swift's `String.hash`, which this model takes as given).
   */
  function ErrorNote(message: string, messageHash: int, s: Session): (n: Option<Note>)
    ensures n.None? <==> Silo.IsRejected(message)
    ensures n.Some? ==> n.value.body == message && n.value.title == "Failed approval for " + s.pairingDisplayName
    ensures n.Some? ==> n.value.identifier == s.id + "_" + IntToString(messageHash)
  {
    if Silo.IsRejected(message) then None
    else Some(Note(s.id + "_" + IntToString(messageHash), "Failed approval for " + s.pairingDisplayName, "", message))
  }

  /** Two errors on one session whose messages hash differently get two identifiers, so neither replaces the other. */
  lemma ErrorNotesDistinct(s: Session, m1: string, h1: int, m2: string, h2: int)
    requires !Silo.IsRejected(m1) && !Silo.IsRejected(m2)
    requires h1 != h2
    ensures ErrorNote(m1, h1, s).value.identifier != ErrorNote(m2, h2, s).value.identifier
  {
    if ErrorNote(m1, h1, s).value.identifier == ErrorNote(m2, h2, s).value.identifier {
      WithCountInjective(s.id, h1, h2);
    }
  }

  // ---- `present`: at most one notification per request id -----------------

  /**
   * The loop of `present` over the pending (or delivered) notifications:
   * each carries the id of the request in its user info, or nothing when
   * that request does not decode.
   */
  method CarriesRequest(notes: seq<Option<string>>, requestID: string) returns (found: bool)
    ensures found <==> Some(requestID) in notes
  {
    var i := 0;
    while i < |notes|
      invariant 0 <= i <= |notes|
      invariant Some(requestID) !in notes[..i]
    {
      if notes[i].Some? && notes[i].value == requestID {
        return true;
      }
      i := i + 1;
    }
    assert notes[..i] == notes;
    return false;
  }

  /**
   * `present`: nothing is posted when a pending or delivered notification
   * already carries this request's id; otherwise one notification whose
   * identifier is the request id.
   */
  method Present(r: Request, s: Session, pending: seq<Option<string>>, delivered: seq<Option<string>>,
                 commits: CommitDisplay, tags: TagSupport) returns (note: Option<Note>)
    ensures note.None? <==> Some(r.id) in pending || Some(r.id) in delivered
    ensures note.Some? ==>
      note.value == Note(r.id, "Request from " + s.pairingDisplayName, NoteSubtitle(r), NoteBody(r, commits, tags))
  {
    var inPending := CarriesRequest(pending, r.id);
    if inPending {
      return None;
    }
    var inDelivered := CarriesRequest(delivered, r.id);
    if inDelivered {
      return None;
    }
    note := Some(Note(r.id, "Request from " + s.pairingDisplayName, NoteSubtitle(r), NoteBody(r, commits, tags)));
  }

  // ---- `presentApproved`: the grouping counter ----------------------------

  /** The note `presentApproved` posts and the counter it leaves behind. */
  datatype Approved = Approved(pushed: map<string, int>, note: Note, replaced: Option<string>)

  /**
   * One `presentApproved` on the counter `pushed`, given the identifiers the
   * notification centre still shows. When the previous grouped notification
   * is gone the group restarts at 1; otherwise it is replaced and the body
   * shows the new count.
   */
  function ApprovedSpec(pushed: map<string, int>, noteId: string, body: string, title: string, subtitle: string,
                        delivered: set<string>): (a: Approved)
    ensures a.pushed.Keys == pushed.Keys + {noteId}
    ensures forall k | k in pushed && k != noteId :: a.pushed[k] == pushed[k]
    ensures var index := if noteId in pushed then pushed[noteId] else 0;
      && (WithCount(noteId, index) !in delivered ==>
            a.note.body == body && a.pushed[noteId] == 1 && a.note.identifier == WithCount(noteId, 1) && a.replaced.None?)
      && (WithCount(noteId, index) in delivered ==>
            && a.note.body == body + " (" + IntToString(index + 1) + ")"
            && a.pushed[noteId] == index + 1
            && a.note.identifier == WithCount(noteId, index + 1)
            && a.replaced == Some(WithCount(noteId, index)))
  {
    var index := if noteId in pushed then pushed[noteId] else 0;
    var previous := WithCount(noteId, index);
    if previous !in delivered then
      Approved((pushed - {noteId})[noteId := 1], Note(WithCount(noteId, 1), title, subtitle, body), None)
    else
      Approved(pushed[noteId := index + 1],
               Note(WithCount(noteId, index + 1), title, subtitle, body + " (" + IntToString(index + 1) + ")"),
               Some(previous))
  }

  /** The grouping counter of `Notify`. */
  class Notifier {
    var pushedNotifications: map<string, int>

    constructor ()
      ensures pushedNotifications == map[]
    {
      pushedNotifications := map[];
    }

    /**
     * `presentApproved`: reads the group's index, checks whether the previous
     * grouped notification is still delivered, posts the next one and stores
     * the new count.
     */
    method PresentApproved(r: Request, s: Session, delivered: set<string>, commits: CommitDisplay, tags: TagSupport)
      returns (note: Note, replaced: Option<string>)
      modifies this
      ensures var a := ApprovedSpec(old(pushedNotifications), RequestNotificationIdentifier(r, s, commits, tags),
                                    NoteBody(r, commits, tags), "Approved request from " + s.pairingDisplayName,
                                    NoteSubtitle(r), delivered);
        pushedNotifications == a.pushed && note == a.note && replaced == a.replaced
    {
      var noteId := RequestNotificationIdentifier(r, s, commits, tags);
      var body := NoteBody(r, commits, tags);
      var noteIndex := 0;
      if noteId in pushedNotifications {
        noteIndex := pushedNotifications[noteId];
      }
      var prevRequestIdentifier := WithCount(noteId, noteIndex);
      replaced := None;
      if prevRequestIdentifier !in delivered {
        pushedNotifications := pushedNotifications - {noteId};
        noteIndex := 0;
      } else {
        replaced := Some(prevRequestIdentifier);
        body := body + " (" + IntToString(noteIndex + 1) + ")";
      }
      note := Note(WithCount(noteId, noteIndex + 1), "Approved request from " + s.pairingDisplayName, NoteSubtitle(r), body);
      pushedNotifications := pushedNotifications[noteId := noteIndex + 1];
    }
  }

  /**
   * The counter keeps naming the newest grouped notification: after a post
   * the stored count is the one in the posted identifier, so while that
   * notification stays delivered the next approval replaces it and counts on.
   */
  lemma ApprovedCountsOn(pushed: map<string, int>, noteId: string, body: string, title: string, subtitle: string,
                         delivered1: set<string>, delivered2: set<string>)
    requires var a := ApprovedSpec(pushed, noteId, body, title, subtitle, delivered1); a.note.identifier in delivered2
    ensures var a := ApprovedSpec(pushed, noteId, body, title, subtitle, delivered1);
      var b := ApprovedSpec(a.pushed, noteId, body, title, subtitle, delivered2);
      && b.replaced == Some(a.note.identifier)
      && b.pushed[noteId] == a.pushed[noteId] + 1
      && b.note.body == body + " (" + IntToString(a.pushed[noteId] + 1) + ")"
  {
  }

  /** A group whose last notification the user cleared starts again at 1 with the plain body. */
  lemma ApprovedRestartsWhenCleared(pushed: map<string, int>, noteId: string, body: string, title: string, subtitle: string,
                                    delivered: set<string>)
    requires noteId in pushed && WithCount(noteId, pushed[noteId]) !in delivered
    ensures var a := ApprovedSpec(pushed, noteId, body, title, subtitle, delivered);
      a.pushed[noteId] == 1 && a.note.body == body && a.note.identifier == WithCount(noteId, 1)
  {
  }
}
