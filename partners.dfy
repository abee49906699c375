/** The partner record the repository returns (a Python dict) and the
    rendering of a message template for one partner. */
module Partners {
  import opened Wrappers
  import opened PyStr

  /** A partner row. `None` in an optional field means the key is absent. */
  datatype Partner = Partner(
    id: int,
    name: Option<string>,
    telegramTag: Option<string>,       // 'telegram_tag'
    telegramLink: Option<string>)      // 'telegramLinkPrimaryLinkUrl'

  const UNKNOWN_NAME := "Unknown"
  const NAME_PLACEHOLDER := "{name}"

  /** `partner.get('name', 'Unknown')`. */
  function NameOf(p: Partner): string {
    p.name.GetOr(UNKNOWN_NAME)
  }

  /** Python truthiness of an optional string: present and non-empty. */
  predicate Truthy(s: Option<string>) {
    s.Some? && s.value != ""
  }

  /** `str(value)` of an optional string: a missing value prints as "None". */
  function PyStrOf(s: Option<string>): string {
    s.GetOr("None")
  }

  /** `template.replace('{name}', name)`. */
  function Render(template: string, name: string): string {
    ReplaceAll(template, NAME_PLACEHOLDER, name)
  }

  /** A template written as literal parts around `{name}` placeholders renders
      with every placeholder replaced by the name. */
  lemma RenderFillsEveryPlaceholder(parts: seq<string>, name: string)
    requires forall j :: 0 <= j < |parts| ==> '{' !in parts[j]
    ensures Render(Join(parts, NAME_PLACEHOLDER), name) == Join(parts, name)
  {
    ReplaceJoined(parts, NAME_PLACEHOLDER, name);
  }

  /** A template without a `{` is sent as it is. */
  lemma RenderWithoutPlaceholder(template: string, name: string)
    requires '{' !in template
    ensures Render(template, name) == template
  {
    ReplaceJoined([template], NAME_PLACEHOLDER, name);
  }
}
