/**
 * The board controller of the browser client: four state cells (the listed
 * messages, whether the composer is open, whether the first load is pending,
 * the error banner) changed by four asynchronous handlers. Each round trip's
 * outcome is a parameter, so a handler runs to completion as one step.
 */
module Board {
  import opened Wrappers
  import Models

  /** A message as the browser receives it; ids and times stay JSON strings. */
  datatype ClientMessage = ClientMessage(
    id: string,
    title: string,
    content: string,
    author: string,
    createdAt: string,
    updatedAt: string,
    priority: string,
    expiresAt: Option<string>,
    enabled: bool)

  /** The body the composer hands over for creation: no id and no timestamps. */
  datatype CreateRequest = CreateRequest(
    title: string,
    content: string,
    author: string,
    priority: Models.Priority,
    expiresAt: Option<string>)

  /**
   * What one round trip produced: a 2xx response (with its decoded body), a
   * response that is not 2xx, or a thrown value (an `Error` with its message,
   * or something that is not an `Error`).
   */
  datatype Response<+T> = Ok(body: T) | NotOk | Threw(message: Option<string>)

  /** The requests the controller sends. */
  datatype Request = GetAll | Post(data: CreateRequest) | Delete(id: string) | Toggle(id: string)

  /** The text a failed round trip leaves in the banner. */
  function ErrorText<T>(r: Response<T>, notOkText: string): (text: string)
    requires !r.Ok?
    ensures r.NotOk? ==> text == notOkText
    ensures r.Threw? && r.message.Some? ==> text == r.message.value
    ensures r == Threw(None) ==> text == "An error occurred"
  {
    match r
    case NotOk => notOkText
    case Threw(Some(m)) => m
    case Threw(None) => "An error occurred"
  }

  datatype BoardState = BoardState(
    messages: seq<ClientMessage>,
    showForm: bool,
    loading: bool,
    error: Option<string>)

  /** Before the first load: nothing listed, composer closed, loading, no error. */
  const Initial := BoardState([], false, true, None)

  /** One user-visible event, with the outcomes of the round trips it makes. */
  datatype Action =
    | Load(list: Response<seq<ClientMessage>>)
    | Create(data: CreateRequest, post: Response<()>, reload: Response<seq<ClientMessage>>)
    | Remove(id: string, delete: Response<()>, reload: Response<seq<ClientMessage>>)
    | ToggleEnabled(id: string, toggle: Response<()>, reload: Response<seq<ClientMessage>>)
    | ToggleForm
    | CancelForm

  /**
   * After a load: a 2xx response replaces the list; any failure keeps the list
   * and sets the banner; either way loading is over.
   */
  function AfterFetch(s: BoardState, r: Response<seq<ClientMessage>>): (t: BoardState)
    ensures !t.loading && t.showForm == s.showForm
    ensures r.Ok? ==> t.messages == r.body && t.error == s.error
    ensures !r.Ok? ==> t.messages == s.messages && t.error == Some(ErrorText(r, "Failed to fetch messages"))
  {
    if r.Ok? then s.(messages := r.body, loading := false)
    else s.(error := Some(ErrorText(r, "Failed to fetch messages")), loading := false)
  }

  /** After a mutating round trip: reload on success, set the banner otherwise. */
  function AfterMutation(s: BoardState, r: Response<()>, reload: Response<seq<ClientMessage>>, notOkText: string)
    : (t: BoardState)
    ensures r.Ok? ==> t == AfterFetch(s, reload)
    ensures !r.Ok? ==> t == s.(error := Some(ErrorText(r, notOkText)))
  {
    if r.Ok? then AfterFetch(s, reload) else s.(error := Some(ErrorText(r, notOkText)))
  }

  /** The requests an action sends, in order. */
  function Requests(a: Action): seq<Request> {
    match a
    case Load(_) => [GetAll]
    case Create(data, post, _) => [Post(data)] + (if post.Ok? then [GetAll] else [])
    case Remove(id, delete, _) => [Delete(id)] + (if delete.Ok? then [GetAll] else [])
    case ToggleEnabled(id, toggle, _) => [Toggle(id)] + (if toggle.Ok? then [GetAll] else [])
    case ToggleForm => []
    case CancelForm => []
  }

  /** The number of reloads in a list of requests. */
  function Reloads(rs: seq<Request>): nat {
    if rs == [] then 0 else (if rs[0] == GetAll then 1 else 0) + Reloads(rs[1..])
  }

  /** The list a successful reload made by the action returned, if there was one. */
  function Snapshot(a: Action): Option<seq<ClientMessage>> {
    match a
    case Load(Ok(list)) => Some(list)
    case Create(_, Ok(_), Ok(list)) => Some(list)
    case Remove(_, Ok(_), Ok(list)) => Some(list)
    case ToggleEnabled(_, Ok(_), Ok(list)) => Some(list)
    case _ => None
  }

  /**
   * One event. Only a successful reload changes the list; loading ends with
   * the first reload; a set banner stays set.
   */
  function Step(s: BoardState, a: Action): (t: BoardState)
    ensures t.messages == (if Snapshot(a).Some? then Snapshot(a).value else s.messages)
    ensures t.loading == (s.loading && Reloads(Requests(a)) == 0)
    ensures s.error.Some? ==> t.error.Some?
  {
    match a
    case Load(r) => AfterFetch(s, r)
    case Create(_, post, reload) =>
      if post.Ok? then AfterFetch(s, reload).(showForm := false)
      else s.(error := Some(ErrorText(post, "Failed to create message")))
    case Remove(_, delete, reload) => AfterMutation(s, delete, reload, "Failed to delete message")
    case ToggleEnabled(_, toggle, reload) => AfterMutation(s, toggle, reload, "Failed to toggle message status")
    case ToggleForm => s.(showForm := !s.showForm)
    case CancelForm => s.(showForm := false)
  }

  /** Every mutation that the server accepts is followed by exactly one reload, and a refused one by none. */
  lemma MutationReloadsOnce(a: Action)
    requires a.Create? || a.Remove? || a.ToggleEnabled?
    ensures |Requests(a)| >= 1 && Requests(a)[0] != GetAll
    ensures Reloads(Requests(a)) == (match a
      case Create(_, post, _) => if post.Ok? then 1 else 0
      case Remove(_, delete, _) => if delete.Ok? then 1 else 0
      case ToggleEnabled(_, toggle, _) => if toggle.Ok? then 1 else 0)
  {
    var rs := Requests(a);
    assert rs[1..] == [] || rs[1..] == [GetAll];
    if rs[1..] == [GetAll] {
      assert rs[1..][1..] == [];
      assert Reloads(rs[1..]) == 1;
    }
  }

  /** An accepted creation closes the composer, even when the reload after it fails. */
  lemma AcceptedCreateClosesForm(s: BoardState, data: CreateRequest, reload: Response<seq<ClientMessage>>)
    ensures !Step(s, Create(data, Ok(()), reload)).showForm
    ensures !reload.Ok? ==> Step(s, Create(data, Ok(()), reload)).messages == s.messages
  {
  }

  /** A refused creation keeps the composer as it was and sends no reload. */
  lemma RefusedCreateKeepsForm(s: BoardState, data: CreateRequest, post: Response<()>, reload: Response<seq<ClientMessage>>)
    requires !post.Ok?
    ensures Step(s, Create(data, post, reload)) == s.(error := Some(ErrorText(post, "Failed to create message")))
    ensures Requests(Create(data, post, reload)) == [Post(data)]
  {
  }

  // ---------------------------------------------------------------------------
  // Sequences of events
  // ---------------------------------------------------------------------------

  function Run(s: BoardState, actions: seq<Action>): BoardState
    decreases |actions|
  {
    if actions == [] then s else Run(Step(s, actions[0]), actions[1..])
  }

  function AllRequests(actions: seq<Action>): seq<Request>
    decreases |actions|
  {
    if actions == [] then [] else Requests(actions[0]) + AllRequests(actions[1..])
  }

  /** The list returned by the last successful reload among `actions`. */
  function LastSnapshot(actions: seq<Action>): Option<seq<ClientMessage>>
    decreases |actions|
  {
    if actions == [] then None
    else
      var later := LastSnapshot(actions[1..]);
      if later.Some? then later else Snapshot(actions[0])
  }

  lemma {:induction false} ReloadsAppend(a: seq<Request>, b: seq<Request>)
    ensures Reloads(a + b) == Reloads(a) + Reloads(b)
    decreases |a|
  {
    if a != [] {
      assert (a + b)[0] == a[0] && (a + b)[1..] == a[1..] + b;
      ReloadsAppend(a[1..], b);
    } else {
      assert a + b == b;
    }
  }

  /**
   * No optimistic updates: after any run of events, the list is exactly what
   * the last successful reload returned, or what it was before if none succeeded.
   */
  lemma {:induction false} ListIsLastSnapshot(s: BoardState, actions: seq<Action>)
    ensures Run(s, actions).messages == (if LastSnapshot(actions).Some? then LastSnapshot(actions).value else s.messages)
    decreases |actions|
  {
    if actions != [] {
      ListIsLastSnapshot(Step(s, actions[0]), actions[1..]);
    }
  }

  /** Loading stays on exactly until the first reload has been sent and answered. */
  lemma {:induction false} LoadingUntilFirstReload(s: BoardState, actions: seq<Action>)
    ensures Run(s, actions).loading == (s.loading && Reloads(AllRequests(actions)) == 0)
    decreases |actions|
  {
    if actions != [] {
      LoadingUntilFirstReload(Step(s, actions[0]), actions[1..]);
      ReloadsAppend(Requests(actions[0]), AllRequests(actions[1..]));
    }
  }

  /** Nothing clears the banner: once an error is shown, one is shown forever after. */
  lemma {:induction false} ErrorNeverCleared(s: BoardState, actions: seq<Action>)
    requires s.error.Some?
    ensures Run(s, actions).error.Some?
    decreases |actions|
  {
    if actions != [] {
      ErrorNeverCleared(Step(s, actions[0]), actions[1..]);
    }
  }

  // ---------------------------------------------------------------------------
  // The controller
  // ---------------------------------------------------------------------------

  class NoticeBoard {
    var messages: seq<ClientMessage>
    var showForm: bool
    var loading: bool
    var error: Option<string>
    /** Every request sent so far, in order. */
    ghost var sent: seq<Request>

    function State(): BoardState
      reads this
    {
      BoardState(messages, showForm, loading, error)
    }

    constructor ()
      ensures State() == Initial && sent == []
    {
      messages := [];
      showForm := false;
      loading := true;
      error := None;
      sent := [];
    }

    /** Loads the list; on mount this is the first call. */
    method FetchMessages(response: Response<seq<ClientMessage>>)
      modifies this
      ensures State() == Step(old(State()), Load(response))
      ensures sent == old(sent) + Requests(Load(response))
    {
      sent := sent + [GetAll];
      if response.Ok? {
        messages := response.body;
      } else {
        error := Some(ErrorText(response, "Failed to fetch messages"));
      }
      loading := false;
    }

    method CreateMessage(data: CreateRequest, response: Response<()>, reload: Response<seq<ClientMessage>>)
      modifies this
      ensures State() == Step(old(State()), Create(data, response, reload))
      ensures sent == old(sent) + Requests(Create(data, response, reload))
    {
      sent := sent + [Post(data)];
      if !response.Ok? {
        error := Some(ErrorText(response, "Failed to create message"));
        return;
      }
      FetchMessages(reload);
      showForm := false;
    }

    method DeleteMessage(id: string, response: Response<()>, reload: Response<seq<ClientMessage>>)
      modifies this
      ensures State() == Step(old(State()), Remove(id, response, reload))
      ensures sent == old(sent) + Requests(Remove(id, response, reload))
    {
      sent := sent + [Delete(id)];
      if !response.Ok? {
        error := Some(ErrorText(response, "Failed to delete message"));
        return;
      }
      FetchMessages(reload);
    }

    method ToggleMessageEnabled(id: string, response: Response<()>, reload: Response<seq<ClientMessage>>)
      modifies this
      ensures State() == Step(old(State()), ToggleEnabled(id, response, reload))
      ensures sent == old(sent) + Requests(ToggleEnabled(id, response, reload))
    {
      sent := sent + [Toggle(id)];
      if !response.Ok? {
        error := Some(ErrorText(response, "Failed to toggle message status"));
        return;
      }
      FetchMessages(reload);
    }

    /** The header button opens a closed composer and closes an open one. */
    method ToggleShowForm()
      modifies this
      ensures State() == Step(old(State()), ToggleForm) && sent == old(sent)
    {
      showForm := !showForm;
    }

    /** The composer's cancel button. */
    method Cancel()
      modifies this
      ensures State() == Step(old(State()), CancelForm) && sent == old(sent)
    {
      showForm := false;
    }
  }
}
