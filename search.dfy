/**
 * The data decision behind `searchAbstract` (script.js:86-133): the typed id is trimmed,
 * an empty id is refused before any lookup, and otherwise the first record whose id is
 * exactly the typed id is shown, or a not-found message.
 */
module Search {
  import opened Wrappers
  import opened Text
  import opened Csv

  /** The two messages the search can show instead of a record. */
  datatype SearchError = MissingId | NoAbstract(id: string)

  /** The text placed in the error element for each error. */
  function Message(e: SearchError): string {
    match e
    case MissingId => "Please enter an Abstract ID"
    case NoAbstract(id) => "No abstract found with ID: " + id
  }

  /** Each message names its error: different errors show different texts. */
  lemma MessageDistinct(a: SearchError, b: SearchError)
    ensures Message(a) == Message(b) <==> a == b
  {
    if a.NoAbstract? && b.NoAbstract? {
      assert a.id == Message(a)[27..] && b.id == Message(b)[27..];
    } else if a != b {
      assert Message(a)[1] != Message(b)[1];
    }
  }

  /** `records.find(item => item.id === id)`, as the index of the first match. */
  function FindById(records: seq<Record>, id: string): (r: Option<nat>)
    ensures r.Some? ==> r.value < |records| && records[r.value].id == Some(id)
    ensures r.Some? ==> forall k :: 0 <= k < r.value ==> records[k].id != Some(id)
    ensures r.None? <==> forall k :: 0 <= k < |records| ==> records[k].id != Some(id)
    decreases |records|
  {
    if |records| == 0 then None
    else if records[0].id == Some(id) then Some(0)
    else match FindById(records[1..], id)
      case None => None
      case Some(k) => Some(k + 1)
  }

  /** The record the search shows for the typed text, or the message it shows instead. */
  function SearchAbstract(input: string, records: seq<Record>): (r: Result<Record, SearchError>)
    ensures r == Failure(MissingId) <==> Trim(input) == ""
    ensures r.Success? ==> Trim(input) != "" && r.value.id == Some(Trim(input))
    ensures r.Success? ==> exists k ::
      && 0 <= k < |records| && records[k] == r.value
      && forall m :: 0 <= m < k ==> records[m].id != Some(Trim(input))
    ensures r.Failure? && r.error.NoAbstract? ==> r.error.id == Trim(input)
    ensures r.Failure? && r.error.NoAbstract? <==>
      Trim(input) != "" && forall k :: 0 <= k < |records| ==> records[k].id != Some(Trim(input))
  {
    var id := Trim(input);
    if id == "" then Failure(MissingId)
    else match FindById(records, id)
      case Some(k) => Success(records[k])
      case None => Failure(NoAbstract(id))
  }

  /** Leading and trailing whitespace typed around an id does not change the outcome. */
  lemma SearchIgnoresPadding(input: string, records: seq<Record>)
    ensures SearchAbstract(Trim(input), records) == SearchAbstract(input, records)
  {
    TrimIdempotent(input);
  }

  /** Before the export has loaded (no records) every non-empty search reports not-found. */
  lemma SearchBeforeLoad(input: string)
    requires Trim(input) != ""
    ensures SearchAbstract(input, []) == Failure(NoAbstract(Trim(input)))
  {
  }
}
