/**
 * The message list of the browser client: total mappings from a priority
 * string (as it arrives from the server, possibly unrecognised) to a colour
 * class, a label and an icon; the empty-state branch; one card per message;
 * and the confirmation gate in front of the delete callback.
 */
module Roster {
  import opened Wrappers
  import Board

  const UrgentStyle := "bg-gradient-to-r from-red-500 to-pink-500 text-white shadow-lg"
  const HighStyle := "bg-gradient-to-r from-orange-400 to-amber-400 text-white shadow-md"
  const NormalStyle := "bg-gradient-to-r from-blue-400 to-indigo-400 text-white shadow-md"
  const LowStyle := "bg-gradient-to-r from-gray-400 to-slate-400 text-white shadow-sm"

  /** The priority strings the list recognises. */
  predicate Known(priority: string) {
    priority in {"urgent", "high", "normal", "low"}
  }

  function PriorityColor(priority: string): (style: string)
    ensures style in {UrgentStyle, HighStyle, NormalStyle, LowStyle}
    ensures priority == "urgent" ==> style == UrgentStyle
    ensures priority == "high" ==> style == HighStyle
    ensures priority == "normal" ==> style == NormalStyle
    ensures priority == "low" ==> style == LowStyle
  {
    match priority
    case "urgent" => UrgentStyle
    case "high" => HighStyle
    case "normal" => NormalStyle
    case "low" => LowStyle
    case _ => LowStyle
  }

  function PriorityLabel(priority: string): (text: string)
    ensures text in {"🔴 紧急", "🟠 高", "🔵 普通", "🟢 低"}
    ensures priority == "urgent" ==> text == "🔴 紧急"
    ensures priority == "high" ==> text == "🟠 高"
    ensures priority == "normal" ==> text == "🔵 普通"
    ensures priority == "low" ==> text == "🟢 低"
  {
    match priority
    case "urgent" => "🔴 紧急"
    case "high" => "🟠 高"
    case "normal" => "🔵 普通"
    case "low" => "🟢 低"
    case _ => "🔵 普通"
  }

  function PriorityIcon(priority: string): (icon: string)
    ensures icon in {"🚨", "⚡", "📌", "📝"}
    ensures priority == "urgent" ==> icon == "🚨"
    ensures priority == "high" ==> icon == "⚡"
    ensures priority == "normal" ==> icon == "📌"
    ensures priority == "low" ==> icon == "📝"
  {
    match priority
    case "urgent" => "🚨"
    case "high" => "⚡"
    case "normal" => "📌"
    case "low" => "📝"
    case _ => "📌"
  }

  /**
   * An unrecognised priority is labelled and iconed like "normal", but
   * coloured like "low", which differs from "normal"'s colour.
   */
  lemma UnknownPriorityFallbacks(priority: string)
    requires !Known(priority)
    ensures PriorityLabel(priority) == PriorityLabel("normal") == "🔵 普通"
    ensures PriorityIcon(priority) == PriorityIcon("normal")
    ensures PriorityColor(priority) == PriorityColor("low") != PriorityColor("normal")
  {
  }

  /** The four recognised priorities get four different labels, icons and colours. */
  lemma KnownPrioritiesDistinct(p: string, q: string)
    requires Known(p) && Known(q) && p != q
    ensures PriorityLabel(p) != PriorityLabel(q)
    ensures PriorityIcon(p) != PriorityIcon(q)
    ensures PriorityColor(p) != PriorityColor(q)
  {
  }

  /** What one card shows; the creation time is passed through unformatted. */
  datatype Card = Card(
    key: string,
    style: string,
    icon: string,
    title: string,
    author: string,
    createdAt: string,
    badge: string,
    content: string)

  /** What the list renders: the empty-state invitation, or the cards. */
  datatype View = EmptyState | Cards(cards: seq<Card>)

  function CardFor(m: Board.ClientMessage): (c: Card)
    ensures c.key == m.id && c.title == m.title && c.author == m.author && c.content == m.content
    ensures c.badge == PriorityLabel(m.priority) && c.icon == PriorityIcon(m.priority)
    ensures c.style == PriorityColor(m.priority) && c.createdAt == m.createdAt
  {
    Card(m.id, PriorityColor(m.priority), PriorityIcon(m.priority), m.title, m.author,
         m.createdAt, PriorityLabel(m.priority), m.content)
  }

  /** One card per message, in the order given. */
  function CardsFor(messages: seq<Board.ClientMessage>): (cards: seq<Card>)
    ensures |cards| == |messages|
    ensures forall i :: 0 <= i < |messages| ==> cards[i].key == messages[i].id && cards[i] == CardFor(messages[i])
    decreases |messages|
  {
    if messages == [] then [] else [CardFor(messages[0])] + CardsFor(messages[1..])
  }

  /** An empty list shows the empty state and no card; any other list shows its cards. */
  function Render(messages: seq<Board.ClientMessage>): (v: View)
    ensures v.EmptyState? <==> |messages| == 0
    ensures v.Cards? ==> |v.cards| == |messages| > 0
    ensures v.Cards? ==> forall i :: 0 <= i < |messages| ==> v.cards[i] == CardFor(messages[i])
  {
    if |messages| == 0 then EmptyState else Cards(CardsFor(messages))
  }

  /**
   * The delete button: `onDelete` is called with the card's message id when
   * the confirmation prompt is accepted, and nothing is called otherwise.
   */
  function DeleteClick(m: Board.ClientMessage, confirmed: bool): (deleted: Option<string>)
    ensures deleted.Some? <==> confirmed
    ensures deleted.Some? ==> deleted.value == m.id
  {
    if confirmed then Some(m.id) else None
  }

  /**
   * A first session: the first load returns no notices, so the empty state is
   * shown; a notice of priority "high" is then created and the reload returns
   * it, so one card with the "high" badge is shown, the composer is closed and
   * no error is shown.
   */
  lemma FirstNoticeScenario(req: Board.CreateRequest, m: Board.ClientMessage)
    requires m.priority == "high"
    ensures Render(Board.Run(Board.Initial, [Board.Load(Board.Ok([]))]).messages) == EmptyState
    ensures
      var actions := [Board.Load(Board.Ok([])), Board.Create(req, Board.Ok(()), Board.Ok([m]))];
      var s := Board.Run(Board.Initial, actions);
      && Board.AllRequests(actions) == [Board.GetAll, Board.Post(req), Board.GetAll]
      && Render(s.messages) == Cards([CardFor(m)])
      && CardFor(m).badge == "🟠 高"
      && !s.loading && !s.showForm && s.error.None?
  {
    var load := Board.Load(Board.Ok([]));
    var create := Board.Create(req, Board.Ok(()), Board.Ok([m]));
    var actions := [load, create];
    var s1 := Board.Step(Board.Initial, load);
    var s2 := Board.Step(s1, create);
    assert [load][1..] == [] && actions[1..] == [create] && [create][1..] == [];
    assert Board.Run(Board.Initial, [load]) == s1;
    assert Board.Run(Board.Initial, actions) == Board.Run(s1, [create]) == s2;
    assert Board.AllRequests([create]) == Board.Requests(create) + Board.AllRequests([]);
    assert Board.AllRequests(actions) == Board.Requests(load) + Board.AllRequests([create]);
    assert Board.Requests(create) == [Board.Post(req), Board.GetAll];
    assert CardsFor([m]) == [CardFor(m)];
  }
}
