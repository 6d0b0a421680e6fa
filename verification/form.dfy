/**
 * The composer of the browser client: a form holding a creation request,
 * a required-field check on submit, and a reset to the defaults after a
 * submission is handed over.
 */
module Form {
  import opened Wrappers
  import Models
  import Board

  /**
   * The characters that JavaScript's `String.prototype.trim` removes: the
   * white space and line terminator code points of ECMAScript.
   */
  predicate IsSpace(c: char) {
    || c in {'\t', '\n', '\U{B}', '\U{C}', '\r', ' ', '\U{A0}', '\U{1680}'}
    || c in {'\U{2028}', '\U{2029}', '\U{202F}', '\U{205F}', '\U{3000}', '\U{FEFF}'}
    || ('\U{2000}' <= c <= '\U{200A}')
  }

  /** `s` without its leading white space. */
  function TrimStart(s: string): (r: string)
    ensures |r| <= |s| && r == s[|s| - |r|..]
    ensures forall i :: 0 <= i < |s| - |r| ==> IsSpace(s[i])
    ensures r == [] || !IsSpace(r[0])
    decreases |s|
  {
    if s != [] && IsSpace(s[0]) then TrimStart(s[1..]) else s
  }

  /** `s` without its trailing white space. */
  function TrimEnd(s: string): (r: string)
    ensures |r| <= |s| && r == s[..|r|]
    ensures forall i :: |r| <= i < |s| ==> IsSpace(s[i])
    ensures r == [] || !IsSpace(r[|r| - 1])
    decreases |s|
  {
    if s != [] && IsSpace(s[|s| - 1]) then TrimEnd(s[..|s| - 1]) else s
  }

  function Trim(s: string): string {
    TrimEnd(TrimStart(s))
  }

  /** A field counts as empty when nothing is left of it after trimming. */
  predicate Blank(s: string) {
    Trim(s) == ""
  }

  /** Every character of `s` is white space. */
  predicate AllSpace(s: string) {
    forall i :: 0 <= i < |s| ==> IsSpace(s[i])
  }

  /** A field is empty after trimming exactly when every character of it is white space. */
  lemma {:induction false} BlankIffAllSpace(s: string)
    ensures Blank(s) <==> AllSpace(s)
  {
    var t := TrimStart(s);
    if exists k :: 0 <= k < |s| && !IsSpace(s[k]) {
      var k :| 0 <= k < |s| && !IsSpace(s[k]);
      assert t[k - (|s| - |t|)] == s[k];
    }
  }

  /**
   * A submission is accepted when title, content and author are all non-empty
   * after trimming, that is, when each holds a character that is not white space.
   */
  predicate Complete(f: Board.CreateRequest): (ok: bool)
    ensures ok <==> !AllSpace(f.title) && !AllSpace(f.content) && !AllSpace(f.author)
  {
    BlankIffAllSpace(f.title);
    BlankIffAllSpace(f.content);
    BlankIffAllSpace(f.author);
    !Blank(f.title) && !Blank(f.content) && !Blank(f.author)
  }

  /** The form as first shown and as reset after a submission: empty texts, priority normal. */
  const InitialForm := Board.CreateRequest("", "", "", Models.Normal, None)

  /** A fresh form cannot be submitted. */
  lemma InitialFormIncomplete()
    ensures !Complete(InitialForm)
  {
  }

  /** The values of the priority selector's options. */
  const PriorityOptions: seq<string> := ["low", "normal", "high", "urgent"]

  /** The selector offers exactly the four priorities, each once. */
  lemma {:induction false} OptionsAreThePriorities(v: string, p: Models.Priority)
    ensures v in PriorityOptions <==> Models.DecodePriority(v).Some?
    ensures Models.EncodePriority(p) in PriorityOptions
    ensures forall i, j :: 0 <= i < j < |PriorityOptions| ==> PriorityOptions[i] != PriorityOptions[j]
  {
  }

  /** The inputs of the form that `handleChange` is wired to. */
  datatype Field = Title | Content | Author | PriorityChoice

  class MessageForm {
    var formData: Board.CreateRequest
    /** How many times the "please fill in all required fields" alert was shown. */
    ghost var alerts: nat

    constructor ()
      ensures formData == InitialForm && alerts == 0
    {
      formData := InitialForm;
      alerts := 0;
    }

    /**
     * Submit: an incomplete form raises the alert and stays as it is; a
     * complete one is handed to `onSubmit` exactly as entered (untrimmed) and
     * the form is reset to its defaults.
     */
    method HandleSubmit() returns (submitted: Option<Board.CreateRequest>)
      modifies this
      ensures submitted.Some? <==> Complete(old(formData))
      ensures submitted.Some? ==> submitted.value == old(formData) && formData == InitialForm && alerts == old(alerts)
      ensures submitted.None? ==> formData == old(formData) && alerts == old(alerts) + 1
    {
      if Trim(formData.title) == "" || Trim(formData.content) == "" || Trim(formData.author) == "" {
        alerts := alerts + 1;
        return None;
      }
      submitted := Some(formData);
      formData := InitialForm;
    }

    /**
     * Change one input. Text inputs store the text as typed; the selector can
     * only produce one of its option values, which becomes the priority.
     */
    method HandleChange(field: Field, value: string)
      requires field == PriorityChoice ==> value in PriorityOptions
      modifies this
      ensures field == Title ==> formData == old(formData).(title := value)
      ensures field == Content ==> formData == old(formData).(content := value)
      ensures field == Author ==> formData == old(formData).(author := value)
      ensures field == PriorityChoice ==>
        formData == old(formData).(priority := formData.priority)
        && Models.EncodePriority(formData.priority) == value
      ensures alerts == old(alerts)
    {
      match field
      case Title => formData := formData.(title := value);
      case Content => formData := formData.(content := value);
      case Author => formData := formData.(author := value);
      case PriorityChoice =>
        var p := Models.DecodePriority(value);
        Models.EncodeDecode(value);
        formData := formData.(priority := p.value);
    }

    /**
     * The composer's cancel button. Closing the composer unmounts the form, so
     * its edits are dropped; a later reopening mounts a fresh form.
     */
    method CancelOn(board: Board.NoticeBoard)
      modifies this, board
      ensures board.State() == Board.Step(old(board.State()), Board.CancelForm) && board.sent == old(board.sent)
      ensures !board.showForm && formData == InitialForm
      ensures alerts == old(alerts)
    {
      board.Cancel();
      formData := InitialForm;
    }

    /**
     * The header button. Closing an open composer unmounts the form and drops
     * its edits; opening a closed one mounts a fresh form with the defaults.
     * Either way the form holds the defaults afterwards.
     */
    method ToggleOn(board: Board.NoticeBoard)
      modifies this, board
      ensures board.State() == Board.Step(old(board.State()), Board.ToggleForm) && board.sent == old(board.sent)
      ensures board.showForm == !old(board.showForm) && formData == InitialForm
      ensures alerts == old(alerts)
    {
      board.ToggleShowForm();
      formData := InitialForm;
    }

    /**
     * The composer wired to the board: a complete form is handed to the
     * board's creation handler and reset at once, before the POST completes.
     * So when the server refuses the POST, the composer stays as open as it was
     * but is empty, and what was typed is gone.
     */
    method SubmitTo(board: Board.NoticeBoard, post: Board.Response<()>, reload: Board.Response<seq<Board.ClientMessage>>)
      modifies this, board
      ensures Complete(old(formData)) ==>
        && formData == InitialForm
        && board.State() == Board.Step(old(board.State()), Board.Create(old(formData), post, reload))
        && board.sent == old(board.sent) + Board.Requests(Board.Create(old(formData), post, reload))
      ensures Complete(old(formData)) && !post.Ok? ==>
        && board.showForm == old(board.showForm) && board.messages == old(board.messages) && board.error.Some?
      ensures !Complete(old(formData)) ==>
        && formData == old(formData) && board.State() == old(board.State()) && board.sent == old(board.sent)
    {
      ghost var before := board.State();
      ghost var data := formData;
      var submitted := HandleSubmit();
      assert board.State() == before;
      if submitted.Some? {
        board.CreateMessage(submitted.value, post, reload);
        if !post.Ok? {
          Board.RefusedCreateKeepsForm(before, data, post, reload);
        }
      }
    }
  }
}
