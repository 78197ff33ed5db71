/** The status badge: a colour variant chosen from the complaint's status, labelled with the status itself. */
module StatusBadge {

  /** The four statuses a complaint moves through. */
  const KnownStatuses := ["Recibida", "En proceso", "Resuelta", "Rechazada"]

  /** The five Bootstrap variants the badge can take. */
  const Variants := ["warning", "primary", "success", "danger", "secondary"]

  /**
   * The variant starts as "secondary" and each of four independent tests may
   * overwrite it; at most one of them can hold for a given string.
   */
  function Variant(status: string): (v: string)
    ensures status == "Recibida" ==> v == "warning"
    ensures status == "En proceso" ==> v == "primary"
    ensures status == "Resuelta" ==> v == "success"
    ensures status == "Rechazada" ==> v == "danger"
    ensures status !in KnownStatuses ==> v == "secondary"
    ensures v in Variants
  {
    var v0 := "secondary";
    var v1 := if status == "Recibida" then "warning" else v0;
    var v2 := if status == "En proceso" then "primary" else v1;
    var v3 := if status == "Resuelta" then "success" else v2;
    if status == "Rechazada" then "danger" else v3
  }

  /** What the badge renders: its background variant and its text. */
  datatype Badge = Badge(bg: string, text: string)

  function RenderBadge(status: string): (b: Badge)
    ensures b.text == status
    ensures b.bg == Variant(status)
  {
    Badge(Variant(status), status)
  }

  /** The four known statuses get four different variants, none of them the fallback. */
  lemma KnownStatusesDistinguished(s1: string, s2: string)
    requires s1 in KnownStatuses && s2 in KnownStatuses
    ensures Variant(s1) != "secondary"
    ensures Variant(s1) == Variant(s2) <==> s1 == s2
  {
  }

  /** A status is shown in the fallback colour exactly when it is not one of the four. */
  lemma SecondaryIffUnknown(status: string)
    ensures Variant(status) == "secondary" <==> status !in KnownStatuses
  {
  }
}
