/** The seed source handed to `init(generator:)`: any `RandomNumberGenerator`,
  * of which the generators only ever call `next()`. It is modelled as the
  * finite list of words it will still produce, consumed from the front. */
module Source {

  class WordSource {
    /** The words the source will return, in order. */
    var pending: seq<bv64>

    constructor (words: seq<bv64>)
      ensures pending == words
    {
      pending := words;
    }

    /** `next()`: returns the first pending word and consumes it. */
    method Next() returns (w: bv64)
      requires |pending| > 0
      modifies this
      ensures w == old(pending)[0]
      ensures pending == old(pending)[1..]
    {
      w := pending[0];
      pending := pending[1..];
    }
  }
}
