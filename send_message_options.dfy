/**
 * The payload of a chat message and the options that shape it.
 *
 * `newSendMessageOptions` allocates a record holding fourteen fields with fixed
 * defaults and then applies each option, in the order given, to that record.
 * Every option overwrites one field, or the three action fields at once, with a
 * value that does not depend on the record it is applied to.
 *
 * The pure part (`Payload`, `Applied`, `AppliedAll`, `Built`) states what the
 * builder computes; the class `SendMessageOptions` and the method
 * `NewSendMessageOptions` are the builder itself, updating fields in place, and
 * are proved against it.
 */
module MessageOptions {
  import opened Wrappers

  /** The role a message is sent as. */
  datatype UserRole = Patient | Doctor

  /** How the action button of a message is shown. */
  datatype MessageActionType =
    | Action     // open the action in an iFrame or a WebView
    | UrlAction  // open the action as an outside URL
    | AppUrl     // open the action as an outside URL, shown only in the mobile app

  /** An attachment; it has no fields. */
  datatype MessageAttachment = MessageAttachment

  /** An instant (a `time.Time`), kept opaque. */
  datatype Instant = Instant(unixNanos: int)

  /** An instant that is encoded as epoch seconds; its codec is not part of this model. */
  datatype Timestamp = Timestamp(time: Instant)

  /**
   * The message payload. `sendFrom == None` is the empty role, which JSON
   * omits; `None` for the deadline and the attachments is Go's nil.
   */
  datatype Payload = Payload(
    text: string,
    forwardToDoctor: bool,
    actionLink: string,
    sendFrom: Option<UserRole>,
    actionName: string,
    actionOneTime: bool,
    actionBig: bool,
    actionType: MessageActionType,
    onlyDoctor: bool,
    needAnswer: bool,
    onlyPatient: bool,
    actionDeadline: Option<Timestamp>,
    isUrgent: bool,
    attachments: Option<seq<MessageAttachment>>)

  /** The record as allocated, before any option is applied. */
  function Defaults(text: string): Payload {
    Payload(
      text := text,
      forwardToDoctor := true,
      actionLink := "",
      sendFrom := None,
      actionName := "",
      actionOneTime := true,
      actionBig := true,
      actionType := Action,
      onlyDoctor := false,
      needAnswer := false,
      onlyPatient := false,
      actionDeadline := None,
      isUrgent := false,
      attachments := None)
  }

  /** One option, as built by the exported option constructors. */
  datatype SendMessageOption =
    | WithAction(name: string, link: string, kind: MessageActionType)
    | WithReusableAction
    | WithSmallAction
    | WithActionDeadline(deadline: Instant)
    | OnlyDoctor
    | OnlyPatient
    | MarkMessagesAnsweredForDoctor
    | NeedAnswer
    | Urgent
    | WithPatientSenderRole
    | WithAttachments(files: Option<seq<MessageAttachment>>)

  /** The names of the payload's fields. */
  datatype Field =
    | TextField | ForwardToDoctorField | ActionLinkField | SendFromField
    | ActionNameField | ActionOneTimeField | ActionBigField | ActionTypeField
    | OnlyDoctorField | NeedAnswerField | OnlyPatientField | ActionDeadlineField
    | IsUrgentField | AttachmentsField

  /** The value held by one field. */
  datatype FieldValue =
    | Str(s: string)
    | Flag(b: bool)
    | Role(role: Option<UserRole>)
    | Kind(kind: MessageActionType)
    | Deadline(deadline: Option<Timestamp>)
    | Files(files: Option<seq<MessageAttachment>>)

  /** The value of field `f` of `p`. */
  function Get(p: Payload, f: Field): FieldValue {
    match f
    case TextField => Str(p.text)
    case ForwardToDoctorField => Flag(p.forwardToDoctor)
    case ActionLinkField => Str(p.actionLink)
    case SendFromField => Role(p.sendFrom)
    case ActionNameField => Str(p.actionName)
    case ActionOneTimeField => Flag(p.actionOneTime)
    case ActionBigField => Flag(p.actionBig)
    case ActionTypeField => Kind(p.actionType)
    case OnlyDoctorField => Flag(p.onlyDoctor)
    case NeedAnswerField => Flag(p.needAnswer)
    case OnlyPatientField => Flag(p.onlyPatient)
    case ActionDeadlineField => Deadline(p.actionDeadline)
    case IsUrgentField => Flag(p.isUrgent)
    case AttachmentsField => Files(p.attachments)
  }

  /** Two payloads that agree on every field are equal. */
  lemma PayloadExtensional(p: Payload, q: Payload)
    requires forall f :: Get(p, f) == Get(q, f)
    ensures p == q
  {
    assert Get(p, TextField) == Get(q, TextField);
    assert Get(p, ForwardToDoctorField) == Get(q, ForwardToDoctorField);
    assert Get(p, ActionLinkField) == Get(q, ActionLinkField);
    assert Get(p, SendFromField) == Get(q, SendFromField);
    assert Get(p, ActionNameField) == Get(q, ActionNameField);
    assert Get(p, ActionOneTimeField) == Get(q, ActionOneTimeField);
    assert Get(p, ActionBigField) == Get(q, ActionBigField);
    assert Get(p, ActionTypeField) == Get(q, ActionTypeField);
    assert Get(p, OnlyDoctorField) == Get(q, OnlyDoctorField);
    assert Get(p, NeedAnswerField) == Get(q, NeedAnswerField);
    assert Get(p, OnlyPatientField) == Get(q, OnlyPatientField);
    assert Get(p, ActionDeadlineField) == Get(q, ActionDeadlineField);
    assert Get(p, IsUrgentField) == Get(q, IsUrgentField);
    assert Get(p, AttachmentsField) == Get(q, AttachmentsField);
  }

  /** Whether option `o` assigns field `f`. No option assigns the text. */
  predicate Writes(o: SendMessageOption, f: Field) {
    match o
    case WithAction(_, _, _) => f == ActionNameField || f == ActionLinkField || f == ActionTypeField
    case WithReusableAction => f == ActionOneTimeField
    case WithSmallAction => f == ActionBigField
    case WithActionDeadline(_) => f == ActionDeadlineField
    case OnlyDoctor => f == OnlyDoctorField
    case OnlyPatient => f == OnlyPatientField
    case MarkMessagesAnsweredForDoctor => f == ForwardToDoctorField
    case NeedAnswer => f == NeedAnswerField
    case Urgent => f == IsUrgentField
    case WithPatientSenderRole => f == SendFromField
    case WithAttachments(_) => f == AttachmentsField
  }

  /** `p` after option `o` has been applied to it. */
  function Applied(p: Payload, o: SendMessageOption): Payload {
    match o
    case WithAction(n, l, t) => p.(actionName := n, actionLink := l, actionType := t)
    case WithReusableAction => p.(actionOneTime := false)
    case WithSmallAction => p.(actionBig := false)
    case WithActionDeadline(t) => p.(actionDeadline := Some(Timestamp(t)))
    case OnlyDoctor => p.(onlyDoctor := true)
    case OnlyPatient => p.(onlyPatient := true)
    case MarkMessagesAnsweredForDoctor => p.(forwardToDoctor := false)
    case NeedAnswer => p.(needAnswer := true)
    case Urgent => p.(isUrgent := true)
    case WithPatientSenderRole => p.(sendFrom := Some(Patient))
    case WithAttachments(a) => p.(attachments := a)
  }

  /** A field an option does not write keeps its value. */
  lemma AppliedKeepsField(p: Payload, o: SendMessageOption, f: Field)
    requires !Writes(o, f)
    ensures Get(Applied(p, o), f) == Get(p, f)
  {
    match o
    case WithAction(_, _, _) =>
    case WithReusableAction =>
    case WithSmallAction =>
    case WithActionDeadline(_) =>
    case OnlyDoctor =>
    case OnlyPatient =>
    case MarkMessagesAnsweredForDoctor =>
    case NeedAnswer =>
    case Urgent =>
    case WithPatientSenderRole =>
    case WithAttachments(_) =>
  }

  /** Every field an option does not write keeps its value. */
  lemma AppliedKeepsOtherFields(p: Payload, o: SendMessageOption)
    ensures forall f :: !Writes(o, f) ==> Get(Applied(p, o), f) == Get(p, f)
  {
    forall f | !Writes(o, f)
      ensures Get(Applied(p, o), f) == Get(p, f)
    {
      AppliedKeepsField(p, o, f);
    }
  }

  /** The fields an option writes get a value that does not depend on the payload it is applied to. */
  lemma AppliedOverwrites(p: Payload, q: Payload, o: SendMessageOption)
    ensures forall f :: Writes(o, f) ==> Get(Applied(p, o), f) == Get(Applied(q, o), f)
  {
    match o
    case WithAction(_, _, _) =>
    case WithReusableAction =>
    case WithSmallAction =>
    case WithActionDeadline(_) =>
    case OnlyDoctor =>
    case OnlyPatient =>
    case MarkMessagesAnsweredForDoctor =>
    case NeedAnswer =>
    case Urgent =>
    case WithPatientSenderRole =>
    case WithAttachments(_) =>
  }

  /** What each option writes. */
  lemma AppliedWrites(p: Payload, o: SendMessageOption)
    ensures o.WithAction? ==> var r := Applied(p, o);
      r.actionName == o.name && r.actionLink == o.link && r.actionType == o.kind
    ensures o.WithReusableAction? ==> !Applied(p, o).actionOneTime
    ensures o.WithSmallAction? ==> !Applied(p, o).actionBig
    ensures o.WithActionDeadline? ==> Applied(p, o).actionDeadline == Some(Timestamp(o.deadline))
    ensures o.OnlyDoctor? ==> Applied(p, o).onlyDoctor
    ensures o.OnlyPatient? ==> Applied(p, o).onlyPatient
    ensures o.MarkMessagesAnsweredForDoctor? ==> !Applied(p, o).forwardToDoctor
    ensures o.NeedAnswer? ==> Applied(p, o).needAnswer
    ensures o.Urgent? ==> Applied(p, o).isUrgent
    ensures o.WithPatientSenderRole? ==> Applied(p, o).sendFrom == Some(Patient)
    ensures o.WithAttachments? ==> Applied(p, o).attachments == o.files
  {
    match o
    case WithAction(_, _, _) =>
    case WithReusableAction =>
    case WithSmallAction =>
    case WithActionDeadline(_) =>
    case OnlyDoctor =>
    case OnlyPatient =>
    case MarkMessagesAnsweredForDoctor =>
    case NeedAnswer =>
    case Urgent =>
    case WithPatientSenderRole =>
    case WithAttachments(_) =>
  }

  /**
   * An option whose fields are all written again by a later option leaves no
   * trace: the later writer wins.
   */
  lemma LaterWriterWins(p: Payload, o1: SendMessageOption, o2: SendMessageOption)
    requires forall f :: Writes(o1, f) ==> Writes(o2, f)
    ensures Applied(Applied(p, o1), o2) == Applied(p, o2)
  {
    var a, b := Applied(Applied(p, o1), o2), Applied(p, o2);
    forall f
      ensures Get(a, f) == Get(b, f)
    {
      if Writes(o2, f) {
        AppliedOverwrites(Applied(p, o1), p, o2);
      } else {
        AppliedKeepsOtherFields(Applied(p, o1), o2);
        AppliedKeepsOtherFields(p, o1);
        AppliedKeepsOtherFields(p, o2);
      }
    }
    PayloadExtensional(a, b);
  }

  /** Applying an option twice is the same as applying it once. */
  lemma AppliedIdempotent(p: Payload, o: SendMessageOption)
    ensures Applied(Applied(p, o), o) == Applied(p, o)
  {
    LaterWriterWins(p, o, o);
  }

  /** No option in `opts` writes `f`. */
  predicate Untouched(opts: seq<SendMessageOption>, f: Field) {
    forall i :: 0 <= i < |opts| ==> !Writes(opts[i], f)
  }

  /** `p` after each option of `opts` has been applied, first to last. */
  function AppliedAll(p: Payload, opts: seq<SendMessageOption>): (r: Payload)
    ensures forall f :: Untouched(opts, f) ==> Get(r, f) == Get(p, f)
    decreases |opts|
  {
    if opts == [] then p
    else
      var init := opts[..|opts| - 1];
      assert forall f :: Untouched(opts, f) ==> Untouched(init, f);
      AppliedKeepsOtherFields(AppliedAll(p, init), opts[|opts| - 1]);
      Applied(AppliedAll(p, init), opts[|opts| - 1])
  }

  /** The payload `newSendMessageOptions(text, opts...)` returns. */
  function Built(text: string, opts: seq<SendMessageOption>): Payload {
    AppliedAll(Defaults(text), opts)
  }

  /** Applying `a` and then `b` is applying `a + b`. */
  lemma {:induction false} AppliedAllAppend(p: Payload, a: seq<SendMessageOption>, b: seq<SendMessageOption>)
    ensures AppliedAll(p, a + b) == AppliedAll(AppliedAll(p, a), b)
    decreases |b|
  {
    if b == [] {
      assert a + b == a;
    } else {
      var n := |b| - 1;
      assert (a + b)[..|a + b| - 1] == a + b[..n];
      AppliedAllAppend(p, a, b[..n]);
    }
  }

  /**
   * The value of a field written by some option is the value the last option
   * that writes it gives it, whatever was there before.
   */
  lemma {:induction false} LastWriterDecides(p: Payload, opts: seq<SendMessageOption>, i: nat, f: Field)
    requires i < |opts| && Writes(opts[i], f)
    requires forall j :: i < j < |opts| ==> !Writes(opts[j], f)
    ensures Get(AppliedAll(p, opts), f) == Get(Applied(p, opts[i]), f)
    decreases |opts|
  {
    var n := |opts| - 1;
    var init := opts[..n];
    var before := AppliedAll(p, init);
    assert AppliedAll(p, opts) == Applied(before, opts[n]);
    if i == n {
      AppliedOverwrites(before, p, opts[n]);
    } else {
      AppliedKeepsOtherFields(before, opts[n]);
      LastWriterDecides(p, init, i, f);
    }
  }

  /** Each flag and the role after one option: only the option naming a flag changes it. */
  lemma AppliedFlags(p: Payload, o: SendMessageOption)
    ensures var r := Applied(p, o);
      && (r.forwardToDoctor <==> p.forwardToDoctor && o != MarkMessagesAnsweredForDoctor)
      && (r.actionOneTime <==> p.actionOneTime && o != WithReusableAction)
      && (r.actionBig <==> p.actionBig && o != WithSmallAction)
      && (r.onlyDoctor <==> p.onlyDoctor || o == OnlyDoctor)
      && (r.onlyPatient <==> p.onlyPatient || o == OnlyPatient)
      && (r.needAnswer <==> p.needAnswer || o == NeedAnswer)
      && (r.isUrgent <==> p.isUrgent || o == Urgent)
      && r.sendFrom == (if o == WithPatientSenderRole then Some(Patient) else p.sendFrom)
  {
    match o
    case WithAction(_, _, _) =>
    case WithReusableAction =>
    case WithSmallAction =>
    case WithActionDeadline(_) =>
    case OnlyDoctor =>
    case OnlyPatient =>
    case MarkMessagesAnsweredForDoctor =>
    case NeedAnswer =>
    case Urgent =>
    case WithPatientSenderRole =>
    case WithAttachments(_) =>
  }

  /**
   * Each flag and the role after a sequence of options: a flag an option sets
   * is set when that option occurs, and kept as it was otherwise.
   */
  lemma {:induction false} FlagsAfter(p: Payload, opts: seq<SendMessageOption>)
    ensures var r := AppliedAll(p, opts);
      && (r.forwardToDoctor <==> p.forwardToDoctor && MarkMessagesAnsweredForDoctor !in opts)
      && (r.actionOneTime <==> p.actionOneTime && WithReusableAction !in opts)
      && (r.actionBig <==> p.actionBig && WithSmallAction !in opts)
      && (r.onlyDoctor <==> p.onlyDoctor || OnlyDoctor in opts)
      && (r.onlyPatient <==> p.onlyPatient || OnlyPatient in opts)
      && (r.needAnswer <==> p.needAnswer || NeedAnswer in opts)
      && (r.isUrgent <==> p.isUrgent || Urgent in opts)
      && r.sendFrom == (if WithPatientSenderRole in opts then Some(Patient) else p.sendFrom)
    decreases |opts|
  {
    if opts != [] {
      var n := |opts| - 1;
      var init, last := opts[..n], opts[n];
      assert opts == init + [last];
      FlagsAfter(p, init);
      AppliedFlags(AppliedAll(p, init), last);
    }
  }

  /** With no options the payload is exactly the defaults. */
  lemma BuiltWithoutOptions(text: string)
    ensures var r := Built(text, []);
      && r.text == text
      && r.forwardToDoctor && r.actionOneTime && r.actionBig
      && r.actionType == Action
      && !r.onlyDoctor && !r.onlyPatient && !r.needAnswer && !r.isUrgent
      && r.actionName == "" && r.actionLink == "" && r.sendFrom == None
      && r.actionDeadline == None && r.attachments == None
  {
  }

  /** No option changes the text. */
  lemma TextNeverChanges(text: string, opts: seq<SendMessageOption>)
    ensures Built(text, opts).text == text
  {
    assert Untouched(opts, TextField);
  }

  /**
   * The flags and the role of a built payload are decided by which options
   * occur, not by their order or number.
   */
  lemma BuiltFlags(text: string, opts: seq<SendMessageOption>)
    ensures var r := Built(text, opts);
      && (r.forwardToDoctor <==> MarkMessagesAnsweredForDoctor !in opts)
      && (r.actionOneTime <==> WithReusableAction !in opts)
      && (r.actionBig <==> WithSmallAction !in opts)
      && (r.onlyDoctor <==> OnlyDoctor in opts)
      && (r.onlyPatient <==> OnlyPatient in opts)
      && (r.needAnswer <==> NeedAnswer in opts)
      && (r.isUrgent <==> Urgent in opts)
  {
    FlagsAfter(Defaults(text), opts);
  }

  /**
   * The role is empty unless `WithPatientSenderRole` is given; nothing makes it
   * `Doctor`, whatever the comment on that option says about the default.
   */
  lemma SendFromDefaultIsEmpty(text: string, opts: seq<SendMessageOption>)
    ensures Built(text, opts).sendFrom == (if WithPatientSenderRole in opts then Some(Patient) else None)
    ensures Built(text, opts).sendFrom != Some(Doctor)
  {
    FlagsAfter(Defaults(text), opts);
  }

  /** Nothing rejects asking for both "only doctor" and "only patient". */
  lemma OnlyDoctorAndOnlyPatientCoexist(text: string, opts: seq<SendMessageOption>)
    requires OnlyDoctor in opts && OnlyPatient in opts
    ensures Built(text, opts).onlyDoctor && Built(text, opts).onlyPatient
  {
    FlagsAfter(Defaults(text), opts);
  }

  /**
   * The action fields come from the last `WithAction`, and keep their defaults
   * when there is none.
   */
  lemma ActionFromLastWithAction(text: string, opts: seq<SendMessageOption>, i: nat)
    requires i < |opts| && opts[i].WithAction?
    requires forall j :: i < j < |opts| ==> !opts[j].WithAction?
    ensures var r := Built(text, opts);
      r.actionName == opts[i].name && r.actionLink == opts[i].link && r.actionType == opts[i].kind
  {
    var p := Defaults(text);
    LastWriterDecides(p, opts, i, ActionNameField);
    LastWriterDecides(p, opts, i, ActionLinkField);
    LastWriterDecides(p, opts, i, ActionTypeField);
  }

  /** Without any `WithAction` the action fields keep their defaults. */
  lemma ActionDefaultsWithoutWithAction(text: string, opts: seq<SendMessageOption>)
    requires forall j :: 0 <= j < |opts| ==> !opts[j].WithAction?
    ensures var r := Built(text, opts);
      r.actionName == "" && r.actionLink == "" && r.actionType == Action
  {
    assert Untouched(opts, ActionNameField);
    assert Untouched(opts, ActionLinkField);
    assert Untouched(opts, ActionTypeField);
  }

  /** The deadline is the one given by the last `WithActionDeadline`. */
  lemma DeadlineFromLastSetting(text: string, opts: seq<SendMessageOption>, i: nat)
    requires i < |opts| && opts[i].WithActionDeadline?
    requires forall j :: i < j < |opts| ==> !opts[j].WithActionDeadline?
    ensures Built(text, opts).actionDeadline == Some(Timestamp(opts[i].deadline))
  {
    LastWriterDecides(Defaults(text), opts, i, ActionDeadlineField);
  }

  /** The attachments are the ones given by the last `WithAttachments`. */
  lemma AttachmentsFromLastSetting(text: string, opts: seq<SendMessageOption>, i: nat)
    requires i < |opts| && opts[i].WithAttachments?
    requires forall j :: i < j < |opts| ==> !opts[j].WithAttachments?
    ensures Built(text, opts).attachments == opts[i].files
  {
    LastWriterDecides(Defaults(text), opts, i, AttachmentsField);
  }

  /** The record `newSendMessageOptions` allocates and the options update through a pointer. */
  class SendMessageOptions {
    var text: string
    var forwardToDoctor: bool
    var actionLink: string
    var sendFrom: Option<UserRole>
    var actionName: string
    var actionOneTime: bool
    var actionBig: bool
    var actionType: MessageActionType
    var onlyDoctor: bool
    var needAnswer: bool
    var onlyPatient: bool
    var actionDeadline: Option<Timestamp>
    var isUrgent: bool
    var attachments: Option<seq<MessageAttachment>>

    /** The record's current contents. */
    function Value(): Payload
      reads this
    {
      Payload(text, forwardToDoctor, actionLink, sendFrom, actionName, actionOneTime, actionBig,
              actionType, onlyDoctor, needAnswer, onlyPatient, actionDeadline, isUrgent, attachments)
    }

    /** The composite literal with its defaults. */
    constructor (text: string)
      ensures Value() == Defaults(text)
    {
      this.text := text;
      forwardToDoctor := true;
      actionLink := "";
      sendFrom := None;
      actionName := "";
      actionOneTime := true;
      actionBig := true;
      actionType := Action;
      onlyDoctor := false;
      needAnswer := false;
      onlyPatient := false;
      actionDeadline := None;
      isUrgent := false;
      attachments := None;
    }

    /** The closure of `WithAction`. */
    method SetAction(name: string, link: string, kind: MessageActionType)
      modifies this
      ensures Value() == old(Value()).(actionName := name, actionLink := link, actionType := kind)
    {
      actionName := name;
      actionLink := link;
      actionType := kind;
    }

    /** The closure of `WithReusableAction`. */
    method SetReusableAction()
      modifies this
      ensures Value() == old(Value()).(actionOneTime := false)
    {
      actionOneTime := false;
    }

    /** The closure of `WithSmallAction`. */
    method SetSmallAction()
      modifies this
      ensures Value() == old(Value()).(actionBig := false)
    {
      actionBig := false;
    }

    /** The closure of `WithActionDeadline`: a new timestamp wrapping `t`. */
    method SetActionDeadline(t: Instant)
      modifies this
      ensures Value() == old(Value()).(actionDeadline := Some(Timestamp(t)))
    {
      actionDeadline := Some(Timestamp(t));
    }

    /** The closure of `OnlyDoctor`. */
    method SetOnlyDoctor()
      modifies this
      ensures Value() == old(Value()).(onlyDoctor := true)
    {
      onlyDoctor := true;
    }

    /** The closure of `OnlyPatient`. */
    method SetOnlyPatient()
      modifies this
      ensures Value() == old(Value()).(onlyPatient := true)
    {
      onlyPatient := true;
    }

    /** The closure of `MarkMessagesAnsweredForDoctor`. */
    method SetAnsweredForDoctor()
      modifies this
      ensures Value() == old(Value()).(forwardToDoctor := false)
    {
      forwardToDoctor := false;
    }

    /** The closure of `NeedAnswer`. */
    method SetNeedAnswer()
      modifies this
      ensures Value() == old(Value()).(needAnswer := true)
    {
      needAnswer := true;
    }

    /** The closure of `Urgent`. */
    method SetUrgent()
      modifies this
      ensures Value() == old(Value()).(isUrgent := true)
    {
      isUrgent := true;
    }

    /** The closure of `WithPatientSenderRole`. */
    method SetPatientSenderRole()
      modifies this
      ensures Value() == old(Value()).(sendFrom := Some(Patient))
    {
      sendFrom := Some(Patient);
    }

    /** The closure of `WithAttachments`. */
    method SetAttachments(a: Option<seq<MessageAttachment>>)
      modifies this
      ensures Value() == old(Value()).(attachments := a)
    {
      attachments := a;
    }

    /** Runs the closure behind option `o` on this record. */
    method Apply(o: SendMessageOption)
      modifies this
      ensures Value() == Applied(old(Value()), o)
    {
      match o
      case WithAction(n, l, t) => SetAction(n, l, t);
      case WithReusableAction => SetReusableAction();
      case WithSmallAction => SetSmallAction();
      case WithActionDeadline(t) => SetActionDeadline(t);
      case OnlyDoctor => SetOnlyDoctor();
      case OnlyPatient => SetOnlyPatient();
      case MarkMessagesAnsweredForDoctor => SetAnsweredForDoctor();
      case NeedAnswer => SetNeedAnswer();
      case Urgent => SetUrgent();
      case WithPatientSenderRole => SetPatientSenderRole();
      case WithAttachments(a) => SetAttachments(a);
    }
  }

  /** Allocates the defaults and applies each option in turn. */
  method NewSendMessageOptions(text: string, opts: seq<SendMessageOption>) returns (smo: SendMessageOptions)
    ensures fresh(smo)
    ensures smo.Value() == Built(text, opts)
  {
    smo := new SendMessageOptions(text);
    for i := 0 to |opts|
      invariant smo.Value() == AppliedAll(Defaults(text), opts[..i])
    {
      smo.Apply(opts[i]);
      assert opts[..i + 1][..i] == opts[..i];
    }
    assert opts[..|opts|] == opts;
  }
}
