/**
 * The document-verification page: the Aadhaar number formatter and the PAN
 * upper-casing applied as the user types, the HTML patterns both inputs carry,
 * the form's initial values, the multipart form it submits, and how it turns
 * the server's reply into a success or error popup.
 */
module PanVerification {
  import opened Wrappers
  import opened Text
  import opened UserModel
  import opened Server
  import opened UserController

  // ---------------------------------------------------------------------------
  // The Aadhaar formatter
  // ---------------------------------------------------------------------------

  /** `value.replace(/\D/g, '')`: the digits of `s`, in order. */
  function Digits(s: string): (r: string)
    ensures |r| <= |s|
    ensures forall i :: 0 <= i < |r| ==> IsDigit(r[i])
  {
    if s == [] then [] else (if IsDigit(s[0]) then [s[0]] else []) + Digits(s[1..])
  }

  predicate AllDigits(s: string) {
    forall i :: 0 <= i < |s| ==> IsDigit(s[i])
  }

  /** `value.match(/.{1,4}/g)` on a string of digits: consecutive groups of four, the last one possibly shorter. */
  function Groups(d: string): (r: seq<string>)
    ensures forall i :: 0 <= i < |r| ==> 1 <= |r[i]| <= 4
    ensures forall i :: 0 <= i < |r| - 1 ==> |r[i]| == 4
    ensures d == [] <==> r == []
    decreases |d|
  {
    if d == [] then []
    else if |d| <= 4 then [d]
    else [d[..4]] + Groups(d[4..])
  }

  /** `groups.join(' ')`. */
  function Join(groups: seq<string>): string {
    if groups == [] then ""
    else if |groups| == 1 then groups[0]
    else groups[0] + " " + Join(groups[1..])
  }

  /** The groups written one after another, without separators. */
  function Concat(groups: seq<string>): string {
    if groups == [] then "" else groups[0] + Concat(groups[1..])
  }

  /**
   * The Aadhaar input's change handler: keep the digits and join groups of four
   * with single spaces. With no digits `match` finds nothing and the
   * `|| value` fall-back yields the empty digit string. The result holds only
   * digits and single spaces, and its digits are exactly the input's, in order.
   */
  function FormatAadhaar(s: string): (r: string)
    ensures forall i :: 0 <= i < |r| ==> IsDigit(r[i]) || r[i] == ' '
    ensures SingleSpaced(r)
    ensures Digits(r) == Digits(s)
    ensures r == [] <==> Digits(s) == []
  {
    var d := Digits(s);
    if d == [] then d
    else
      GroupsAreDigits(d);
      JoinShape(Groups(d));
      DigitsOfJoin(Groups(d));
      ConcatGroups(d);
      Join(Groups(d))
  }

  /** A string of single-space-separated non-empty words: no leading, trailing or doubled space. */
  predicate SingleSpaced(t: string) {
    && (t != [] ==> t[0] != ' ' && t[|t| - 1] != ' ')
    && forall i :: 0 <= i < |t| - 1 && t[i] == ' ' ==> t[i + 1] != ' '
  }

  lemma {:induction false} DigitsConcat(a: string, b: string)
    ensures Digits(a + b) == Digits(a) + Digits(b)
  {
    if a == [] {
      assert a + b == b;
    } else {
      assert (a + b)[0] == a[0] && (a + b)[1..] == a[1..] + b;
      DigitsConcat(a[1..], b);
    }
  }

  lemma {:induction false} DigitsOfDigits(d: string)
    requires AllDigits(d)
    ensures Digits(d) == d
  {
    if d != [] {
      DigitsOfDigits(d[1..]);
    }
  }

  lemma {:induction false} ConcatGroups(d: string)
    ensures Concat(Groups(d)) == d
    decreases |d|
  {
    if |d| > 4 {
      ConcatGroups(d[4..]);
      assert d[..4] + d[4..] == d;
    }
  }

  lemma {:induction false} GroupsAreDigits(d: string)
    requires AllDigits(d)
    ensures forall i :: 0 <= i < |Groups(d)| ==> AllDigits(Groups(d)[i])
    decreases |d|
  {
    if |d| > 4 {
      GroupsAreDigits(d[4..]);
    }
  }

  /** Removing the separators of joined digit groups gives the groups' digits back. */
  lemma {:induction false} DigitsOfJoin(groups: seq<string>)
    requires forall i :: 0 <= i < |groups| ==> AllDigits(groups[i])
    ensures Digits(Join(groups)) == Concat(groups)
  {
    if groups == [] {
    } else if |groups| == 1 {
      DigitsOfDigits(groups[0]);
      assert Concat(groups[1..]) == "";
      assert groups[0] + "" == groups[0];
    } else {
      DigitsOfJoin(groups[1..]);
      DigitsConcat(groups[0] + " ", Join(groups[1..]));
      DigitsSpaceAfter(groups[0]);
      DigitsOfDigits(groups[0]);
    }
  }

  /** Joining non-empty words of digits yields a single-spaced string of digits and spaces. */
  lemma {:induction false} JoinShape(groups: seq<string>)
    requires forall i :: 0 <= i < |groups| ==> |groups[i]| > 0 && AllDigits(groups[i])
    ensures groups != [] ==> Join(groups) != [] && Join(groups)[0] == groups[0][0]
    ensures groups != [] ==> Join(groups) != [] && Join(groups)[|Join(groups)| - 1] == groups[|groups| - 1][|groups[|groups| - 1]| - 1]
    ensures forall i :: 0 <= i < |Join(groups)| ==> IsDigit(Join(groups)[i]) || Join(groups)[i] == ' '
    ensures SingleSpaced(Join(groups))
  {
    if |groups| > 1 {
      var rest := Join(groups[1..]);
      JoinShape(groups[1..]);
      var t := groups[0] + " " + rest;
      assert Join(groups) == t;
      var n := |groups[0]|;
      forall i | 0 <= i < |t| ensures IsDigit(t[i]) || t[i] == ' ' {
        if i < n {
          assert t[i] == groups[0][i];
        } else if i > n {
          assert t[i] == rest[i - n - 1];
        }
      }
      assert forall i :: 0 <= i < n ==> t[i] == groups[0][i];
      forall i | 0 <= i < |t| - 1 && t[i] == ' ' ensures t[i + 1] != ' ' {
        if i == n {
          assert t[i + 1] == rest[0];
        } else if i > n {
          assert t[i] == rest[i - n - 1] && t[i + 1] == rest[i - n];
        }
      }
      assert t[|t| - 1] == rest[|rest| - 1];
    }
  }

  /** The formatted number is the input's digits in groups of four, joined by single spaces. */
  lemma FormatGroups(s: string)
    ensures Digits(s) != [] ==> FormatAadhaar(s) == Join(Groups(Digits(s))) && Concat(Groups(Digits(s))) == Digits(s)
    ensures Digits(s) == [] <==> FormatAadhaar(s) == ""
  {
    var d := Digits(s);
    if d != [] {
      ConcatGroups(d);
      GroupsAreDigits(d);
      JoinShape(Groups(d));
    }
  }

  /** Re-formatting an already formatted number leaves it unchanged. */
  lemma FormatIdempotent(s: string)
    ensures FormatAadhaar(FormatAadhaar(s)) == FormatAadhaar(s)
  {
  }

  /** The Aadhaar input's `pattern` attribute, `[0-9]{4} [0-9]{4} [0-9]{4}`, matched against the whole value. */
  predicate AadhaarPattern(t: string) {
    && |t| == 14 && t[4] == ' ' && t[9] == ' '
    && forall i :: 0 <= i < 14 && i != 4 && i != 9 ==> IsDigit(t[i])
  }

  /** Twelve digits are joined into three groups of four. */
  lemma {:induction false} TwelveDigitsMatch(d: string)
    requires AllDigits(d) && |d| == 12
    ensures AadhaarPattern(Join(Groups(d)))
  {
    assert Groups(d[8..]) == [d[8..]];
    assert d[4..][..4] == d[4..8] && d[4..][4..] == d[8..];
    assert Groups(d[4..]) == [d[4..8]] + Groups(d[8..]);
    var gs := Groups(d);
    assert gs == [d[..4], d[4..8], d[8..]];
    assert gs[1..] == [d[4..8], d[8..]] && gs[1..][1..] == [d[8..]];
    assert Join(gs[1..]) == d[4..8] + " " + d[8..];
    var t := Join(gs);
    assert t == d[..4] + " " + (d[4..8] + " " + d[8..]);
    forall i | 0 <= i < 14 && i != 4 && i != 9 ensures IsDigit(t[i]) {
      if i < 4 {
        assert t[i] == d[i];
      } else if i < 9 {
        assert t[i] == d[i - 1];
      } else {
        assert t[i] == d[i - 2];
      }
    }
  }

  /** A trailing space adds no digit. */
  lemma DigitsSpaceAfter(x: string)
    ensures Digits(x + " ") == Digits(x)
  {
    DigitsConcat(x, " ");
    assert Digits(" ") == "" by {
      assert " "[1..] == "";
    }
    assert Digits(x) + "" == Digits(x);
  }

  lemma DigitsOfSpaced(a: string, b: string, c: string)
    requires AllDigits(a) && AllDigits(b) && AllDigits(c)
    ensures Digits(a + " " + b + " " + c) == a + b + c
  {
    DigitsOfDigits(a);
    DigitsOfDigits(b);
    DigitsOfDigits(c);
    DigitsSpaceAfter(a);
    DigitsConcat(a + " ", b);
    assert Digits(a + " " + b) == a + b;
    DigitsSpaceAfter(a + " " + b);
    DigitsConcat(a + " " + b + " ", c);
  }

  /** A value matching the pattern holds twelve digits. */
  lemma {:induction false} PatternHoldsTwelveDigits(t: string)
    requires AadhaarPattern(t)
    ensures |Digits(t)| == 12
  {
    var a, b, c := t[..4], t[5..9], t[10..];
    assert t == a + " " + b + " " + c;
    assert AllDigits(a) && AllDigits(b) && AllDigits(c) by {
      assert forall i :: 0 <= i < 4 ==> a[i] == t[i] && b[i] == t[i + 5] && c[i] == t[i + 10];
    }
    DigitsOfSpaced(a, b, c);
  }

  /** A formatted number passes the pattern exactly when the input held twelve digits; longer input is not cut short. */
  lemma FormatMatchesPatternIff(s: string)
    ensures AadhaarPattern(FormatAadhaar(s)) <==> |Digits(s)| == 12
  {
    if |Digits(s)| == 12 {
      TwelveDigitsMatch(Digits(s));
    }
    if AadhaarPattern(FormatAadhaar(s)) {
      PatternHoldsTwelveDigits(FormatAadhaar(s));
    }
  }

  // ---------------------------------------------------------------------------
  // The PAN input
  // ---------------------------------------------------------------------------

  /** The PAN input's `pattern` attribute, `[A-Z]{5}[0-9]{4}[A-Z]{1}`, matched against the whole value. */
  predicate PanPattern(t: string) {
    && |t| == 10
    && (forall i :: 0 <= i < 5 ==> IsUpperLetter(t[i]))
    && (forall i :: 5 <= i < 9 ==> IsDigit(t[i]))
    && IsUpperLetter(t[9])
  }

  predicate IsLetter(c: char) {
    IsUpperLetter(c) || IsLowerLetter(c)
  }

  /** The PAN input's change handler: what is typed is stored upper-cased. */
  function PanInput(typed: string): (r: string)
    ensures |r| == |typed|
    ensures forall i :: 0 <= i < |r| ==> !IsLowerLetter(r[i])
  {
    ToUpper(typed)
  }

  /** Because of the upper-casing, a PAN typed in either case passes the pattern exactly when its shape is right. */
  lemma PanInputPatternIff(typed: string)
    ensures PanPattern(PanInput(typed)) <==>
      && |typed| == 10
      && (forall i :: 0 <= i < 5 ==> IsLetter(typed[i]))
      && (forall i :: 5 <= i < 9 ==> IsDigit(typed[i]))
      && IsLetter(typed[9])
  {
  }

  /** Upper-casing a stored PAN again changes nothing. */
  lemma PanInputIdempotent(typed: string)
    ensures PanInput(PanInput(typed)) == PanInput(typed)
  {
  }

  // ---------------------------------------------------------------------------
  // Initial state and submission
  // ---------------------------------------------------------------------------

  /** A falsy stored number (absent or empty) starts the input empty. */
  function InitialNumber(stored: Option<string>): (r: string)
    ensures Truthy(stored) ==> r == stored.value
    ensures !Truthy(stored) ==> r == ""
  {
    if Truthy(stored) then stored.value else ""
  }

  /** `location.state?.redirectAfter || '/profile'`. */
  function RedirectTarget(redirectAfter: Option<string>): (r: string)
    ensures Truthy(redirectAfter) ==> r == redirectAfter.value
    ensures !Truthy(redirectAfter) ==> r == "/profile"
    ensures r != ""
  {
    if Truthy(redirectAfter) then redirectAfter.value else "/profile"
  }

  /** A chosen file, known by its name. */
  type FileRef = string

  /** One entry of the multipart form. */
  datatype Entry = Field(name: string, value: string) | Attachment(name: string, file: FileRef)

  predicate HasAttachment(entries: seq<Entry>, name: string) {
    exists i :: 0 <= i < |entries| && entries[i].Attachment? && entries[i].name == name
  }

  /** The value of the first text field called `name`, as the server's form parser reads it. */
  function FieldValue(entries: seq<Entry>, name: string): Option<string> {
    if entries == [] then None
    else if entries[0].Field? && entries[0].name == name then Some(entries[0].value)
    else FieldValue(entries[1..], name)
  }

  /** The attachment called `name`, stored under `path`, as the server's upload middleware hands it on. */
  function AttachmentPath(entries: seq<Entry>, name: string, path: string): Option<string> {
    if HasAttachment(entries, name) then Some(path) else None
  }

  /** The form `handleSubmit` sends: both numbers, always, then each document that was chosen. */
  method BuildSubmission(panNumber: string, aadharNumber: string, panImage: Option<FileRef>, aadharImage: Option<FileRef>)
    returns (entries: seq<Entry>)
    ensures |entries| >= 2
    ensures entries[0] == Field("pancard", panNumber) && entries[1] == Field("aadharcard", aadharNumber)
    ensures forall i :: 2 <= i < |entries| ==> entries[i].Attachment?
    ensures HasAttachment(entries, "panDocument") <==> panImage.Some?
    ensures HasAttachment(entries, "aadharDocument") <==> aadharImage.Some?
    ensures |entries| == 2 + (if panImage.Some? then 1 else 0) + (if aadharImage.Some? then 1 else 0)
    ensures forall i :: 0 <= i < |entries| && entries[i].Attachment? && entries[i].name == "panDocument" ==> entries[i].file == panImage.value
    ensures forall i :: 0 <= i < |entries| && entries[i].Attachment? && entries[i].name == "aadharDocument" ==> entries[i].file == aadharImage.value
  {
    entries := [];
    entries := entries + [Field("pancard", panNumber)];
    entries := entries + [Field("aadharcard", aadharNumber)];
    if panImage.Some? {
      entries := entries + [Attachment("panDocument", panImage.value)];
    }
    if aadharImage.Some? {
      entries := entries + [Attachment("aadharDocument", aadharImage.value)];
    }
    assert HasAttachment(entries, "panDocument") ==> panImage.Some? by {
      if HasAttachment(entries, "panDocument") {
        var i :| 0 <= i < |entries| && entries[i].Attachment? && entries[i].name == "panDocument";
        assert i == 2;
      }
    }
    assert panImage.Some? ==> entries[2].Attachment? && entries[2].name == "panDocument";
    assert aadharImage.Some? ==> entries[|entries| - 1].Attachment? && entries[|entries| - 1].name == "aadharDocument";
  }

  /** The numbers sent are the form's first two fields. */
  lemma {:induction false} SubmittedNumbers(entries: seq<Entry>, panNumber: string, aadharNumber: string)
    requires |entries| >= 2 && entries[0] == Field("pancard", panNumber) && entries[1] == Field("aadharcard", aadharNumber)
    ensures FieldValue(entries, "pancard") == Some(panNumber)
    ensures FieldValue(entries, "aadharcard") == Some(aadharNumber)
  {
    assert entries[1..][0] == entries[1];
  }

  /**
   * The server accepts a submission built by the page exactly when both numbers
   * are non-empty and both documents were chosen.
   */
  lemma ServerAcceptsIff(entries: seq<Entry>, panNumber: string, aadharNumber: string,
                         panImage: Option<FileRef>, aadharImage: Option<FileRef>, panPath: string, aadharPath: string)
    requires |entries| >= 2 && entries[0] == Field("pancard", panNumber) && entries[1] == Field("aadharcard", aadharNumber)
    requires HasAttachment(entries, "panDocument") <==> panImage.Some?
    requires HasAttachment(entries, "aadharDocument") <==> aadharImage.Some?
    ensures DocumentsComplete(FieldValue(entries, "pancard"), FieldValue(entries, "aadharcard"),
                              AttachmentPath(entries, "panDocument", panPath), AttachmentPath(entries, "aadharDocument", aadharPath))
            <==> panNumber != "" && aadharNumber != "" && panImage.Some? && aadharImage.Some?
  {
    SubmittedNumbers(entries, panNumber, aadharNumber);
  }

  // ---------------------------------------------------------------------------
  // Reading the reply
  // ---------------------------------------------------------------------------

  /** An HTTP reply as the page sees it: the status and the JSON body's `success` and `message`. */
  datatype Reply = Reply(status: int, success: Option<bool>, message: Option<string>)

  /** The reply the document handlers send; their bodies carry no `success` field. */
  function DocumentReply(r: DocReply): (reply: Reply)
    ensures reply.success.None? && reply.message == Some(r.message)
    ensures r.Submitted? ==> reply.status == 200
    ensures r.Refused? ==> reply.status == r.status
  {
    match r
    case Submitted(message, _, _, _, _) => Reply(200, None, Some(message))
    case Refused(status, message, _) => Reply(status, None, Some(message))
  }

  /** The reply of the error middleware, for requests refused before the handler runs. */
  function ErrorReply(err: RaisedError): (reply: Reply)
    ensures reply.status == ErrorResponse(err).0 && reply.success == Some(false)
    ensures reply.message == Some(ErrorResponse(err).1.message)
  {
    var (status, body) := ErrorResponse(err);
    Reply(status, Some(body.success), Some(body.message))
  }

  predicate Ok(reply: Reply) {
    200 <= reply.status < 300
  }

  datatype PopupKind = SuccessPopup | ErrorPopup

  /** The classification as written: only an explicit `success: false` counts as an error. */
  function AsWrittenPopup(reply: Reply): (k: PopupKind)
    ensures k == ErrorPopup <==> reply.success == Some(false)
  {
    if reply.success == Some(false) then ErrorPopup else SuccessPopup
  }

  /**
   * Every refused document submission (the 400 for missing inputs, the 500
   * for a missing user, the 500 for a duplicate number) is shown as a success
   * by the classification as written, while the intended one shows a non-2xx
   * refusal as an error.
   */
  lemma RefusedSubmissionShownAsSuccess(r: DocReply)
    requires r.Refused?
    ensures AsWrittenPopup(DocumentReply(r)) == SuccessPopup
    ensures !(200 <= r.status < 300) ==> ReplyPopup(DocumentReply(r)) == ErrorPopup
  {
  }

  /** The intended classification: a reply that is not 2xx, or that says `success: false`, is an error. */
  function ReplyPopup(reply: Reply): (k: PopupKind)
    ensures k == SuccessPopup <==> Ok(reply) && reply.success != Some(false)
  {
    if !Ok(reply) || reply.success == Some(false) then ErrorPopup else SuccessPopup
  }

  /** With the intended classification, a document reply is shown as a success exactly when the server stored the documents. */
  lemma DocumentPopupIff(r: DocReply)
    requires r.Refused? ==> !(200 <= r.status < 300)
    ensures ReplyPopup(DocumentReply(r)) == SuccessPopup <==> r.Submitted?
  {
  }

  /** Every error-middleware reply is shown as an error either way. */
  lemma ErrorReplyShownAsError(err: RaisedError)
    ensures ReplyPopup(ErrorReply(err)) == ErrorPopup
    ensures AsWrittenPopup(ErrorReply(err)) == ErrorPopup
  {
  }

  const SuccessMessage := "Documents submitted successfully! They will be verified shortly."

  /** The page's state. */
  class Page {
    var panNumber: string
    var aadharNumber: string
    var panImage: Option<FileRef>
    var aadharImage: Option<FileRef>
    var loading: bool
    var showPopup: bool
    var popupKind: Option<PopupKind>
    var popupMessage: string
    const redirectAfter: string

    /** Numbers from the signed-in user, no files, no popup; the redirect target from the navigation state. */
    constructor (user: PublicUser, redirectState: Option<string>)
      ensures panNumber == InitialNumber(user.panNumber) && aadharNumber == InitialNumber(user.aadharNumber)
      ensures panImage.None? && aadharImage.None?
      ensures !loading && !showPopup && popupKind.None? && popupMessage == ""
      ensures redirectAfter == RedirectTarget(redirectState)
    {
      panNumber := InitialNumber(user.panNumber);
      aadharNumber := InitialNumber(user.aadharNumber);
      panImage := None;
      aadharImage := None;
      loading := false;
      showPopup := false;
      popupKind := None;
      popupMessage := "";
      redirectAfter := RedirectTarget(redirectState);
    }

    method TypePan(typed: string)
      modifies this
      ensures panNumber == PanInput(typed)
      ensures aadharNumber == old(aadharNumber) && panImage == old(panImage) && aadharImage == old(aadharImage)
      ensures loading == old(loading) && showPopup == old(showPopup) && popupKind == old(popupKind) && popupMessage == old(popupMessage)
    {
      panNumber := PanInput(typed);
    }

    method TypeAadhaar(typed: string)
      modifies this
      ensures aadharNumber == FormatAadhaar(typed)
      ensures panNumber == old(panNumber) && panImage == old(panImage) && aadharImage == old(aadharImage)
      ensures loading == old(loading) && showPopup == old(showPopup) && popupKind == old(popupKind) && popupMessage == old(popupMessage)
    {
      aadharNumber := FormatAadhaar(typed);
    }

    /** The PAN file input: `{ ...files, panImage: e.target.files[0] }`. */
    method ChoosePanFile(file: Option<FileRef>)
      modifies this
      ensures panImage == file && aadharImage == old(aadharImage)
      ensures panNumber == old(panNumber) && aadharNumber == old(aadharNumber)
      ensures loading == old(loading) && showPopup == old(showPopup) && popupKind == old(popupKind) && popupMessage == old(popupMessage)
    {
      panImage := file;
    }

    /** The Aadhaar file input: `{ ...files, aadharImage: e.target.files[0] }`. */
    method ChooseAadhaarFile(file: Option<FileRef>)
      modifies this
      ensures aadharImage == file && panImage == old(panImage)
      ensures panNumber == old(panNumber) && aadharNumber == old(aadharNumber)
      ensures loading == old(loading) && showPopup == old(showPopup) && popupKind == old(popupKind) && popupMessage == old(popupMessage)
    {
      aadharImage := file;
    }

    /**
     * `handleSubmit`: sends the form and shows a popup for the outcome. `outcome`
     * is the reply, or the message of the exception the request or the JSON
     * parsing raised. The reply is classified as the page does it, by
     * `success === false` alone (see `RefusedSubmissionShownAsSuccess`); a
     * missing message is shown as the empty string. Loading is over afterwards
     * whatever happened.
     */
    method Submit(outcome: Result<Reply, string>) returns (sent: seq<Entry>)
      modifies this
      ensures |sent| >= 2 && sent[..2] == [Field("pancard", panNumber), Field("aadharcard", aadharNumber)]
      ensures HasAttachment(sent, "panDocument") <==> panImage.Some?
      ensures HasAttachment(sent, "aadharDocument") <==> aadharImage.Some?
      ensures !loading && showPopup
      ensures outcome.Err? ==> popupKind == Some(ErrorPopup) && popupMessage == outcome.error
      ensures outcome.Ok? ==> popupKind == Some(AsWrittenPopup(outcome.value))
      ensures outcome.Ok? && outcome.value.success == Some(false) ==> popupMessage == outcome.value.message.GetOr("")
      ensures outcome.Ok? && outcome.value.success != Some(false) ==> popupMessage == SuccessMessage
      ensures panNumber == old(panNumber) && aadharNumber == old(aadharNumber)
      ensures panImage == old(panImage) && aadharImage == old(aadharImage)
    {
      loading := true;
      sent := BuildSubmission(panNumber, aadharNumber, panImage, aadharImage);
      match outcome {
        case Err(message) =>
          popupKind := Some(ErrorPopup);
          popupMessage := message;
        case Ok(reply) =>
          if reply.success == Some(false) {
            popupKind := Some(ErrorPopup);
            popupMessage := reply.message.GetOr("");
          } else {
            popupKind := Some(SuccessPopup);
            popupMessage := SuccessMessage;
          }
      }
      showPopup := true;
      loading := false;
    }
  }
}
