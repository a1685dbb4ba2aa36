/** The values the stakeholder influence mapper works on: the stakeholder
    records, the draft a new record is typed into, the contact details asked
    for before an export, and the per-field edit of a record. */
module Records {

  datatype Option<T> = None | Some(value: T)

  /** One tracked stakeholder. The id is read from the clock when the record
      is added; influence and support are meant to lie in 1..10 and
      engagement in 1..5, but nothing enforces that. */
  datatype Stakeholder = Stakeholder(
    id: int,
    name: string,
    title: string,
    department: string,
    influence: int,
    support: int,
    engagement: int,
    relationship: string)

  /** The record being typed into the "Add Stakeholder" form: a stakeholder
      without an id. */
  datatype Draft = Draft(
    name: string,
    title: string,
    department: string,
    influence: int,
    support: int,
    engagement: int,
    relationship: string)

  /** The draft the form starts with and is reset to after every add. */
  const DefaultDraft: Draft := Draft("", "", "", 5, 5, 3, "new")

  /** `{ ...draft, id }`: the draft's fields plus an id. */
  function Attach(d: Draft, id: int): Stakeholder {
    Stakeholder(id, d.name, d.title, d.department, d.influence, d.support, d.engagement, d.relationship)
  }

  /** The inputs of the "Add Stakeholder" form. */
  datatype DraftInput = NameInput | TitleInput | DepartmentInput

  /** The contact details collected by the lead-capture form. */
  datatype Lead = Lead(name: string, email: string, company: string, phone: string)

  const EmptyLead: Lead := Lead("", "", "", "")

  /** The inputs of the lead-capture form. */
  datatype ContactInput = ContactName | ContactEmail | ContactCompany | ContactPhone

  /** The fields a record has besides its id. */
  datatype Field = Name | Title | Department | Influence | Support | Engagement | Relationship

  /** The property key a field is stored under. */
  function FieldName(f: Field): string {
    match f
    case Name => "name"
    case Title => "title"
    case Department => "department"
    case Influence => "influence"
    case Support => "support"
    case Engagement => "engagement"
    case Relationship => "relationship"
  }

  /** What a field holds: text, or a number for the three scores. */
  datatype FieldValue = Text(text: string) | Number(number: int)

  /** Reads one field of a record. */
  function Get(r: Stakeholder, f: Field): FieldValue {
    match f
    case Name => Text(r.name)
    case Title => Text(r.title)
    case Department => Text(r.department)
    case Influence => Number(r.influence)
    case Support => Number(r.support)
    case Engagement => Number(r.engagement)
    case Relationship => Text(r.relationship)
  }

  predicate StartsWith(s: string, p: string) {
    |p| <= |s| && s[..|p|] == p
  }

  /** `s.includes(p)`: p occurs somewhere in s. */
  predicate Includes(s: string, p: string)
    decreases |s|
  {
    StartsWith(s, p) || (|s| > 0 && Includes(s[1..], p))
  }

  /** A string that lacks some character of p cannot contain p. */
  lemma {:induction false} MissingCharNotIncluded(s: string, p: string, c: char)
    requires c in p && c !in s
    ensures !Includes(s, p)
  {
    if |p| <= |s| {
      assert c !in s[..|p|];
    }
    if |s| > 0 {
      MissingCharNotIncluded(s[1..], p, c);
    }
  }

  /** The update rule parses the value to an integer exactly when the key
      includes "influence", "support" or "engagement". */
  predicate IsNumericKey(key: string) {
    Includes(key, "influence") || Includes(key, "support") || Includes(key, "engagement")
  }

  /** A key with no 'f', no 'u' and no 'g' includes none of the three score
      names. */
  lemma NotNumericKey(key: string)
    requires 'f' !in key && 'u' !in key && 'g' !in key
    ensures !IsNumericKey(key)
  {
    MissingCharNotIncluded(key, "influence", 'f');
    MissingCharNotIncluded(key, "support", 'u');
    MissingCharNotIncluded(key, "engagement", 'g');
  }

  /** Of the seven keys, exactly the three score keys pass that test. */
  lemma NumericKeys(f: Field)
    ensures IsNumericKey(FieldName(f)) <==> f in {Influence, Support, Engagement}
  {
    var key := FieldName(f);
    if f in {Influence, Support, Engagement} {
      assert StartsWith(key, key);
    } else {
      NotNumericKey(key);
    }
  }

  /** `{ ...r, [field]: numeric ? parseInt(value) : value }`, where `parsed`
      stands for `parseInt(value)`: the record with one field replaced. */
  function SetField(r: Stakeholder, f: Field, value: string, parsed: int): (u: Stakeholder)
    ensures u.id == r.id
    ensures Get(u, f) == if IsNumericKey(FieldName(f)) then Number(parsed) else Text(value)
    ensures forall g :: g != f ==> Get(u, g) == Get(r, g)
  {
    NumericKeys(f);
    match f
    case Name => r.(name := value)
    case Title => r.(title := value)
    case Department => r.(department := value)
    case Influence => r.(influence := parsed)
    case Support => r.(support := parsed)
    case Engagement => r.(engagement := parsed)
    case Relationship => r.(relationship := value)
  }
}
