/**
 * The internet-connection settings page: the icon chosen for a connection
 * type, the badge colour chosen for a status, which optional blocks a card
 * shows, and what the page shows after loading.
 */
module InternetConnections {
  import opened Common

  datatype ConnectionIcon = SignalIcon | GlobeIcon | WifiIcon

  /** A connection-type row as the page reads it; `cost` is a number, `status` may be absent. */
  datatype Connection = Connection(id: string, connectionType: Option<string>, speed: string,
                                   provider: string, status: Option<string>, cost: Option<int>)

  /** `switch (type?.toLowerCase())`: an absent type falls to the default case. */
  function GetConnectionIcon(connectionType: Option<string>): (r: ConnectionIcon)
    ensures r == SignalIcon <==>
      connectionType.Some? && ToLower(connectionType.value) in {"fiber", "fibre"}
    ensures r == GlobeIcon <==>
      connectionType.Some? && ToLower(connectionType.value) in {"adsl", "dsl"}
  {
    if connectionType.None? then WifiIcon
    else
      match ToLower(connectionType.value)
      case "fiber" => SignalIcon
      case "fibre" => SignalIcon
      case "adsl" => GlobeIcon
      case "dsl" => GlobeIcon
      case "wifi" => WifiIcon
      case "wireless" => WifiIcon
      case _ => WifiIcon
  }

  /** `switch (status?.toLowerCase())` choosing the status badge colour. */
  function GetConnectionColor(status: Option<string>): (r: BadgeColor)
    ensures r in {Green, Red, Yellow, Gray}
    ensures r == Green <==> status.Some? && ToLower(status.value) in {"active", "actif"}
    ensures r == Red <==> status.Some? && ToLower(status.value) in {"inactive", "inactif"}
    ensures r == Yellow <==> status.Some? && ToLower(status.value) == "maintenance"
  {
    if status.None? then Gray
    else
      match ToLower(status.value)
      case "active" => Green
      case "actif" => Green
      case "inactive" => Red
      case "inactif" => Red
      case "maintenance" => Yellow
      case _ => Gray
  }

  /** Matching ignores case: a type or status is classified as its lower-case form is. */
  lemma ClassificationIgnoresCase(s: string)
    ensures GetConnectionIcon(Some(s)) == GetConnectionIcon(Some(ToLower(s)))
    ensures GetConnectionColor(Some(s)) == GetConnectionColor(Some(ToLower(s)))
  {
    ToLowerIdempotent(s);
  }

  /** fiber and fibre, in any case: the signal icon. */
  lemma FiberGroup(s: string)
    requires ToLower(s) in {"fiber", "fibre"}
    ensures GetConnectionIcon(Some(s)) == SignalIcon
  {
  }

  /** adsl and dsl, in any case: the globe icon. */
  lemma DslGroup(s: string)
    requires ToLower(s) in {"adsl", "dsl"}
    ensures GetConnectionIcon(Some(s)) == GlobeIcon
  {
  }

  /** wifi and wireless, every other type, and a missing one: the Wi-Fi icon. */
  lemma WifiIsTheDefault(s: string)
    requires ToLower(s) !in {"fiber", "fibre", "adsl", "dsl"}
    ensures GetConnectionIcon(Some(s)) == WifiIcon
    ensures GetConnectionIcon(None) == WifiIcon
  {
  }

  /** active and actif, in any case: green. */
  lemma ActiveIsGreen(s: string)
    requires ToLower(s) in {"active", "actif"}
    ensures GetConnectionColor(Some(s)) == Green
  {
  }

  /** inactive and inactif, in any case: red. */
  lemma InactiveIsRed(s: string)
    requires ToLower(s) in {"inactive", "inactif"}
    ensures GetConnectionColor(Some(s)) == Red
  {
  }

  /** maintenance, in any case: yellow. */
  lemma MaintenanceIsYellow(s: string)
    requires ToLower(s) == "maintenance"
    ensures GetConnectionColor(Some(s)) == Yellow
  {
  }

  /** Every other status, and a missing one, is gray. */
  lemma OtherStatusIsGray(other: string)
    requires ToLower(other) !in {"active", "actif", "inactive", "inactif", "maintenance"}
    ensures GetConnectionColor(Some(other)) == Gray
    ensures GetConnectionColor(None) == Gray
  {
  }

  /**
   * What stands in the cost slot of a card. `{connection.cost && (…)}` renders
   * a falsy number as text, so a cost of 0 leaves a bare "0".
   */
  datatype CostSlot = NoCost | StrayZero | CostBlock(cost: int)

  /** What one connection card shows. */
  datatype CardView = CardView(icon: ConnectionIcon, statusBadge: Option<BadgeColor>, cost: CostSlot)

  /** The card of one connection: the badge needs a status, the cost block a non-zero cost. */
  function ConnectionCard(c: Connection): (v: CardView)
    ensures v.icon == GetConnectionIcon(c.connectionType)
    ensures v.statusBadge.Some? <==> Truthy(c.status)
    ensures v.statusBadge.Some? ==> v.statusBadge.value == GetConnectionColor(c.status)
    ensures v.cost.CostBlock? <==> c.cost.Some? && c.cost.value != 0
    ensures v.cost.CostBlock? ==> v.cost.cost == c.cost.value
    ensures v.cost == StrayZero <==> c.cost == Some(0)
  {
    CardView(
      GetConnectionIcon(c.connectionType),
      if Truthy(c.status) then Some(GetConnectionColor(c.status)) else None,
      match c.cost
      case None => NoCost
      case Some(v) => if v == 0 then StrayZero else CostBlock(v))
  }

  /** The list part of the page: the count in the description and either the empty state or the cards. */
  datatype ListView = ListView(count: nat, emptyState: bool, cards: seq<CardView>)

  function ConnectionList(cs: seq<Connection>): (v: ListView)
    ensures v.count == |cs|
    ensures v.emptyState <==> cs == []
    ensures |v.cards| == |cs|
    ensures forall i :: 0 <= i < |cs| ==> v.cards[i] == ConnectionCard(cs[i])
  {
    if cs == [] then ListView(0, true, [])
    else
      var rest := ConnectionList(cs[1..]);
      ListView(|cs|, false, [ConnectionCard(cs[0])] + rest.cards)
  }

  /**
   * What the action `getInternetConnectionTypes` produced. The message of
   * an error result may be missing or empty.
   */
  datatype LoadOutcome =
    | Loaded(data: Option<seq<Connection>>)
    | ErrorResult(message: Option<string>)
    | Threw

  datatype PageView = LoadingPage | ErrorPage(message: string) | ListPage(list: ListView)

  /**
   * The page after the load effect has finished; `data || []` turns missing
   * data into an empty list. An error result stores `error.message`, and
   * the page shows the error only when that message is truthy; otherwise the
   * list keeps its initial empty value.
   */
  function PageAfterLoad(outcome: LoadOutcome): (p: PageView)
    ensures p != LoadingPage
    ensures outcome.Loaded? ==>
      p == ListPage(ConnectionList(if outcome.data.Some? then outcome.data.value else []))
    ensures outcome.ErrorResult? && Truthy(outcome.message) ==> p == ErrorPage(outcome.message.value)
    ensures outcome.ErrorResult? && !Truthy(outcome.message) ==>
      p == ListPage(ConnectionList([])) && p.list.emptyState && p.list.count == 0
    ensures outcome.Threw? ==> p == ErrorPage("Failed to load internet connection types")
    ensures p.ErrorPage? ==> p.message != ""
  {
    match outcome
    case Loaded(data) => ListPage(ConnectionList(if data.Some? then data.value else []))
    case ErrorResult(message) =>
      if Truthy(message) then ErrorPage(message.value) else ListPage(ConnectionList([]))
    case Threw => ErrorPage("Failed to load internet connection types")
  }
}
