/**
 * Record identifiers, abstracted. The document store's ids are ObjectIds
 * whose text is 24 hexadecimal digits; here a store assigns each new row
 * the next position as its id, `_id.toString()` stands for the decimal text
 * of that position, and the `ObjectId.isValid` check stands for accepting
 * exactly such text. Only the round trip between an id and its text, and
 * the refusal of any other text, are kept from the original.
 */
module Ids {
  import opened Wrappers
  import opened Strings

  /** `id.toString()`. */
  function IdText(id: nat): (t: string)
    ensures t != [] && AllDigits(t)
  {
    NatToString(id)
  }

  /** `toObjectId(text)`: the id the text names, or None where the source throws "Invalid … identifier". */
  function ParseId(text: string): (id: Option<nat>)
    ensures id.Some? <==> text != [] && AllDigits(text)
  {
    ParseDecimal(text)
  }

  /** The text of an id names that id. */
  lemma ParseIdText(id: nat)
    ensures ParseId(IdText(id)) == Some(id)
  {
    ParseNatToString(id);
  }
}
