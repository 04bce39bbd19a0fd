/** The user's list of applications: one card per application, or the empty state. */
module ApplicationsList {
  import opened Common
  import opened Models
  import opened StatusBadge

  /** JavaScript truthiness of an optional string field: present and not "". */
  predicate Truthy(u: Option<string>) {
    u.Some? && u.value != ""
  }

  /** What `{application.cost && (...)}` renders: the coin badge for a non-zero cost, and
      for a cost of 0 the falsy number itself, which React prints as the text "0". */
  datatype CostSlot = CostBadge(amount: int) | BareText(text: string)

  datatype Card = Card(
    id: int,
    title: string,
    description: string,
    badge: Badge,
    showsMedia: bool,             // the "attached files" box
    photoLink: Option<string>,
    videoLink: Option<string>,
    cost: CostSlot)

  datatype ListView = EmptyState | CardList(cards: seq<Card>)

  function LinkFor(u: Option<string>): (l: Option<string>)
    ensures l.Some? <==> Truthy(u)
    ensures l.Some? ==> l == u
  {
    if Truthy(u) then u else None
  }

  function CostSlotFor(cost: int): (c: CostSlot)
    ensures c.CostBadge? <==> cost != 0
    ensures c.CostBadge? ==> c.amount == cost
    ensures c.BareText? ==> c.text == "0"
  {
    if cost != 0 then CostBadge(cost) else BareText("0")
  }

  /** The card of one application. */
  function CardFor(a: Application): (c: Card)
    ensures c.id == a.id && c.title == a.title && c.description == a.description
    ensures c.badge == BadgeFor(a.status)
    ensures c.showsMedia <==> Truthy(a.photoUrl) || Truthy(a.videoUrl)
    ensures c.photoLink == LinkFor(a.photoUrl) && c.videoLink == LinkFor(a.videoUrl)
    ensures c.cost == CostSlotFor(a.cost)
  {
    Card(a.id, a.title, a.description, BadgeFor(a.status),
         Truthy(a.photoUrl) || Truthy(a.videoUrl),
         LinkFor(a.photoUrl), LinkFor(a.videoUrl), CostSlotFor(a.cost))
  }

  /** `applications.map(...)`. */
  function CardsFor(apps: seq<Application>): (cs: seq<Card>)
    ensures |cs| == |apps|
    ensures forall i :: 0 <= i < |apps| ==> cs[i] == CardFor(apps[i])
  {
    if apps == [] then [] else [CardFor(apps[0])] + CardsFor(apps[1..])
  }

  /** The component: the empty state for an empty list, else one card per application,
      in input order. */
  function Render(apps: seq<Application>): (v: ListView)
    ensures v.EmptyState? <==> apps == []
    ensures v.CardList? ==> |v.cards| == |apps| && forall i :: 0 <= i < |apps| ==> v.cards[i] == CardFor(apps[i])
  {
    if |apps| == 0 then EmptyState else CardList(CardsFor(apps))
  }

  /** Every application the backend creates shows its cost badge, 50 coins, and the
      pending badge until its status is changed. */
  lemma NewApplicationCard(id: int, userId: int, title: string, description: string,
                           photoUrl: Option<string>, videoUrl: Option<string>)
    ensures var c := CardFor(NewApplication(id, userId, title, description, photoUrl, videoUrl));
      c.cost == CostBadge(ApplicationCost) && c.badge == BadgeFor(StatusPending)
  {
  }
}
