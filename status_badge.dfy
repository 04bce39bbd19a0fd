/** The three-way status switches (`getStatusIcon`, `getStatusText`, `getStatusColor`).
    The applications list and the admin panel each carry an identical copy of them. */
module StatusBadge {
  import opened Models

  datatype Icon = CheckCircle | XCircle | Clock

  datatype Badge = Badge(text: string, color: string, icon: Icon)

  /** How a status string is shown: only the exact strings "approved" and "rejected"
      have their own badge; every other string falls to the `default` branch. */
  datatype Shown = ShownApproved | ShownRejected | ShownPending

  function ShownAs(status: string): (k: Shown)
    ensures k == ShownApproved <==> status == StatusApproved
    ensures k == ShownRejected <==> status == StatusRejected
  {
    if status == StatusApproved then ShownApproved
    else if status == StatusRejected then ShownRejected
    else ShownPending
  }

  /** The text names the approval and the rejection and nothing else, so it tells the
      three branches apart. */
  function StatusText(status: string): (t: string)
    ensures t == "Одобрена" <==> status == StatusApproved
    ensures t == "Отклонена" <==> status == StatusRejected
    ensures t in {"Одобрена", "Отклонена", "На рассмотрении"}
  {
    match ShownAs(status)
    case ShownApproved => "Одобрена"
    case ShownRejected => "Отклонена"
    case ShownPending => "На рассмотрении"
  }

  /** Green for an approval, red for a rejection, yellow for everything else. */
  function StatusColor(status: string): (c: string)
    ensures c == "bg-green-100 text-green-800" <==> status == StatusApproved
    ensures c == "bg-red-100 text-red-800" <==> status == StatusRejected
    ensures c in {"bg-green-100 text-green-800", "bg-red-100 text-red-800", "bg-yellow-100 text-yellow-800"}
  {
    match ShownAs(status)
    case ShownApproved => "bg-green-100 text-green-800"
    case ShownRejected => "bg-red-100 text-red-800"
    case ShownPending => "bg-yellow-100 text-yellow-800"
  }

  /** The clock stands for every status that is neither approved nor rejected. */
  function StatusIcon(status: string): (i: Icon)
    ensures i == CheckCircle <==> status == StatusApproved
    ensures i == XCircle <==> status == StatusRejected
    ensures i == Clock <==> status != StatusApproved && status != StatusRejected
  {
    match ShownAs(status)
    case ShownApproved => CheckCircle
    case ShownRejected => XCircle
    case ShownPending => Clock
  }

  /** The badge a card shows for a status. */
  function BadgeFor(status: string): (b: Badge)
    ensures status == StatusApproved ==> b == Badge("Одобрена", "bg-green-100 text-green-800", CheckCircle)
    ensures status == StatusRejected ==> b == Badge("Отклонена", "bg-red-100 text-red-800", XCircle)
    ensures status != StatusApproved && status != StatusRejected ==>
      b == Badge("На рассмотрении", "bg-yellow-100 text-yellow-800", Clock)
  {
    Badge(StatusText(status), StatusColor(status), StatusIcon(status))
  }

  /** Two statuses get the same badge exactly when they fall in the same branch, and
      each of text, colour and icon alone tells the branch. */
  lemma BadgeDeterminesBranch(s: string, t: string)
    ensures BadgeFor(s) == BadgeFor(t) <==> ShownAs(s) == ShownAs(t)
    ensures StatusText(s) == StatusText(t) <==> ShownAs(s) == ShownAs(t)
    ensures StatusColor(s) == StatusColor(t) <==> ShownAs(s) == ShownAs(t)
    ensures StatusIcon(s) == StatusIcon(t) <==> ShownAs(s) == ShownAs(t)
  {
  }
}
