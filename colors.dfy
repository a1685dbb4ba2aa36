/** The display classes chosen for a score: a background colour for
    influence, a text colour for support. */
module Colors {

  const InfluenceRed := "bg-red-500"
  const InfluenceOrange := "bg-orange-500"
  const InfluenceYellow := "bg-yellow-500"
  const InfluenceGreen := "bg-green-500"

  /** `getInfluenceColor`: red from 8, orange for 6 and 7, yellow for 4 and
      5, green below 4. */
  function InfluenceColor(influence: int): (c: string)
    ensures c == InfluenceRed <==> influence >= 8
    ensures c == InfluenceOrange <==> 6 <= influence < 8
    ensures c == InfluenceYellow <==> 4 <= influence < 6
    ensures c == InfluenceGreen <==> influence < 4
  {
    if influence >= 8 then InfluenceRed
    else if influence >= 6 then InfluenceOrange
    else if influence >= 4 then InfluenceYellow
    else InfluenceGreen
  }

  /** How strong an influence colour is, green 0 up to red 3. */
  function InfluenceHeat(c: string): nat {
    if c == InfluenceRed then 3
    else if c == InfluenceOrange then 2
    else if c == InfluenceYellow then 1
    else 0
  }

  /** More influence never gives a weaker colour. */
  lemma InfluenceColorMonotone(a: int, b: int)
    requires a <= b
    ensures InfluenceHeat(InfluenceColor(a)) <= InfluenceHeat(InfluenceColor(b))
  {
  }

  const SupportGreen := "text-green-600"
  const SupportYellow := "text-yellow-600"
  const SupportRed := "text-red-600"

  /** `getSupportColor`: green from 7, yellow for 4 to 6, red below 4. */
  function SupportColor(support: int): (c: string)
    ensures c == SupportGreen <==> support >= 7
    ensures c == SupportYellow <==> 4 <= support < 7
    ensures c == SupportRed <==> support < 4
  {
    if support >= 7 then SupportGreen
    else if support >= 4 then SupportYellow
    else SupportRed
  }

  /** How favourable a support colour is, red 0 up to green 2. */
  function SupportLevel(c: string): nat {
    if c == SupportGreen then 2
    else if c == SupportYellow then 1
    else 0
  }

  /** More support never gives a less favourable colour. */
  lemma SupportColorMonotone(a: int, b: int)
    requires a <= b
    ensures SupportLevel(SupportColor(a)) <= SupportLevel(SupportColor(b))
  {
  }
}
