/** The event type enumeration both scoring files declare (identically),
    and the conversion from the raw `type` string an inbox event carries. */
module EventTypes {

  /** `AGENCY`, `COURT`, `FILING`, `SPREAD_MOVE`, `NEWS`; `Other` is a type
      string outside the enumeration, which reaches the scorers through the
      inbox's unchecked cast of `event.type`. */
  datatype EventType = Agency | Court | Filing | SpreadMove | News | Other(name: string)

  function TypeName(t: EventType): string
  {
    match t
    case Agency => "AGENCY"
    case Court => "COURT"
    case Filing => "FILING"
    case SpreadMove => "SPREAD_MOVE"
    case News => "NEWS"
    case Other(name) => name
  }

  /** An `Other` value never carries one of the five enumerated names. */
  predicate WellFormed(t: EventType)
  {
    t.Other? ==> t.name !in {"AGENCY", "COURT", "FILING", "SPREAD_MOVE", "NEWS"}
  }

  /** The type value a raw type string stands for. */
  function ParseEventType(s: string): (t: EventType)
    ensures WellFormed(t) && TypeName(t) == s
  {
    if s == "AGENCY" then Agency
    else if s == "COURT" then Court
    else if s == "FILING" then Filing
    else if s == "SPREAD_MOVE" then SpreadMove
    else if s == "NEWS" then News
    else Other(s)
  }

  /** Parsing inverts naming on well-formed types. */
  lemma ParseTypeName(t: EventType)
    requires WellFormed(t)
    ensures ParseEventType(TypeName(t)) == t
  {
  }

  /** `Math.abs` */
  function Abs(x: real): (r: real)
    ensures r >= 0.0 && (r == x || r == -x)
  {
    if x < 0.0 then -x else x
  }
}
