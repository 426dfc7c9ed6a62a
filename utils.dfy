/** lib/utils.ts: address truncation for display. */
module Utils {
  import opened Js

  /**
   * `truncateAddress`: the empty string stays empty; otherwise the first six
   * characters, an ellipsis and the last four. Short inputs are not padded, so
   * for fewer than ten characters the two parts overlap.
   */
  function TruncateAddress(address: string): (r: string)
    ensures address == "" ==> r == ""
    ensures address != "" ==>
              r == address[..Min(6, |address|)] + "..." + address[|address| - Min(4, |address|)..]
  {
    SlicePrefix(address, 6);
    SliceSuffix(address, 4);
    if address == "" then "" else Slice(address, 0, 6) + "..." + SliceFrom(address, -4)
  }

  /** A non-empty address yields min(6, n) + 3 + min(4, n) characters. */
  lemma TruncateLength(address: string)
    requires address != ""
    ensures |TruncateAddress(address)| == Min(6, |address|) + 3 + Min(4, |address|)
  {
  }

  /** A full 42-character hexadecimal address is shown in 13 characters. */
  lemma TruncateFullAddress(address: string)
    requires |address| == 42
    ensures |TruncateAddress(address)| == 13
  {
    TruncateLength(address);
  }

  /** With at least six characters the result keeps the first six and the last four. */
  lemma TruncateKeepsEnds(address: string)
    requires |address| >= 6
    ensures var r := TruncateAddress(address);
            r[..6] == address[..6] && r[6..9] == "..." && r[|r| - 4..] == address[|address| - 4..]
  {
  }

  /** A short input repeats its characters: slice(-4) clamps to the start. */
  lemma TruncateShortRepeats()
    ensures TruncateAddress("abc") == "abc...abc"
  {
  }
}
