/**
 * Document ids as the handlers receive them: strings that the database layer casts to
 * ObjectIds before a query by `_id`, and that it prints back as 24 lower-case hex digits.
 */
module DocumentIds {

  /** 24 hexadecimal digits in either case: the strings that cast to an ObjectId. */
  predicate IsObjectIdHex(id: string) {
    |id| == 24 && forall i :: 0 <= i < 24 ==> ('0' <= id[i] <= '9' || 'a' <= id[i] <= 'f' || 'A' <= id[i] <= 'F')
  }

  /** One hex digit in lower case, as an ObjectId prints it. */
  function LowerHexDigit(c: char): char {
    if 'A' <= c <= 'F' then ((c as int) - ('A' as int) + ('a' as int)) as char else c
  }

  /** The document id a hex string is cast to: the same digits in lower case. */
  function ObjectIdOf(id: string): string {
    seq(|id|, i requires 0 <= i < |id| => LowerHexDigit(id[i]))
  }

  /**
   * A cast id is itself an id that casts, to itself, and carries no upper-case digit:
   * every way of writing a document id designates the same stored document.
   */
  lemma CastCanonical(id: string)
    requires IsObjectIdHex(id)
    ensures IsObjectIdHex(ObjectIdOf(id))
    ensures ObjectIdOf(ObjectIdOf(id)) == ObjectIdOf(id)
    ensures forall i :: 0 <= i < 24 ==> !('A' <= ObjectIdOf(id)[i] <= 'F')
  {
  }
}
