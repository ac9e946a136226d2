/** Facts about error and diagnostic messages: which strings they contain. */
module Text {

  /** `part` occurs somewhere in `text` as a contiguous piece. */
  ghost predicate Mentions(text: string, part: string) {
    exists i | 0 <= i <= |text| :: part <= text[i..]
  }

  /** A message that ends with `part` mentions it. */
  lemma MentionsEnd(before: string, part: string)
    ensures Mentions(before + part, part)
  {
    assert (before + part)[|before|..] == part;
  }

  /** Appending to a message keeps every mention in it. */
  lemma MentionsExtend(text: string, part: string, more: string)
    requires Mentions(text, part)
    ensures Mentions(text + more, part)
  {
    var i :| 0 <= i <= |text| && part <= text[i..];
    assert (text + more)[i..] == text[i..] + more;
  }
}
