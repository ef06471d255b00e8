/** One download attempt into a part file (download_chunk, src/proxchunk.cpp:389-505). */
module PartFiles {
  import opened Wrappers

  newtype byte = x: int | 0 <= x < 256

  type Bytes = seq<byte>

  const HTTP_OK := 200
  const HTTP_PARTIAL := 206

  /** A part file: None when the file does not exist. */
  type Part = Option<Bytes>

  function Size(p: Part): nat { if p.Some? then |p.value| else 0 }

  function Content(p: Part): Bytes { if p.Some? then p.value else [] }

  predicate RangeServed(code: int) { code == HTTP_PARTIAL || code == HTTP_OK }

  /** fopen with "ab" for a part that has bytes, with "wb" otherwise. */
  function Opened(p: Part): Part { if Size(p) > 0 then p else Some([]) }

  /** What becomes of a part of which `have` bytes were on disk before a transfer that ended
      with status `code`: whether it is accepted, and what stays on disk. */
  function Settle(now: Bytes, have: nat, want: int, code: int): (bool, Part)
    requires have <= |now|
  {
    if |now| >= want then (true, Some(now))
    else if RangeServed(code) && |now| > have then (false, Some(now))
    else if have <= 0 then (false, None)
    else (false, Some(now[..have]))
  }

  /** The transfer assumption: a 206 or 200 answer delivers a prefix of the range asked for
      (sections 14.1.2 and 15.3.7 of RFC 9110), and any other outcome delivers fewer bytes
      than are missing. */
  predicate Faithful(range: Bytes, have: nat, body: Bytes, code: int) {
    have <= |range| &&
    if RangeServed(code) then body <= range[have..] else |body| < |range| - have
  }

  /** Whatever is transferred, an attempt keeps every byte the part had before it, and what
      it does not keep it takes back exactly: a part that cannot be kept is as it was. */
  lemma SettleOutcome(before: Part, want: int, body: Bytes, code: int)
    requires Size(before) < want
    ensures var all := Content(before) + body;
            var (ok, after) := Settle(all, Size(before), want, code);
            && (ok <==> |all| >= want)
            && Content(before) <= Content(after)
            && (ok || (code in {200, 206} && body != []) ==> after == Some(all))
            && (!ok && !(code in {200, 206} && body != []) ==>
                  after == if Size(before) == 0 then None else before)
  {
    assert (Content(before) + body)[..Size(before)] == Content(before);
  }

  /** Under the assumption a part that was a prefix of its range stays one and never gets
      shorter, and an attempt is accepted just when the part is the whole range. */
  lemma SettleKeepsPrefix(range: Bytes, before: Part, body: Bytes, code: int)
    requires Content(before) <= range && Size(before) < |range|
    requires Faithful(range, Size(before), body, code)
    ensures var (ok, after) := Settle(Content(before) + body, Size(before), |range|, code);
            && Content(after) <= range
            && Content(before) <= Content(after)
            && (ok <==> Content(after) == range)
  {
    var have, now := Size(before), Content(before) + body;
    if RangeServed(code) {
      assert range == range[..have] + range[have..];
    } else {
      assert now[..have] == Content(before);
    }
  }

  /** An attempt whose outcome does no harm: it is rolled back, or what it delivered continues the
      range. The status code alone does not tell. */
  predicate Harmless(range: Bytes, have: nat, body: Bytes, code: int) {
    have <= |range| &&
    ((have + |body| < |range| && !(RangeServed(code) && body != [])) || body <= range[have..])
  }

  /** A part that was a prefix of its range stays one if and only if the attempt is harmless. */
  lemma SettleKeepsPrefixExactly(range: Bytes, before: Part, body: Bytes, code: int)
    requires Content(before) <= range && Size(before) < |range|
    ensures Content(Settle(Content(before) + body, Size(before), |range|, code).1) <= range
            <==> Harmless(range, Size(before), body, code)
  {
    var have, all := Size(before), Content(before) + body;
    assert all[..have] == Content(before);
    assert all <= range <==> body <= range[have..] by { PrefixBehind(range, Content(before), body); }
  }

  lemma PrefixBehind(range: Bytes, front: Bytes, body: Bytes)
    requires front <= range
    ensures front + body <= range <==> body <= range[|front|..]
  {
    if front + body <= range {
      assert range[..|front| + |body|] == front + body;
      assert body == range[|front|..][..|body|];
    }
    if body <= range[|front|..] {
      assert range == front + range[|front|..];
    }
  }

  /** Without it the size test, which comes before the status test, accepts an error page
      that has the missing length: the attempt succeeds and the part is wrong. */
  lemma ErrorPageAccepted(range: Bytes, before: Part, page: Bytes, code: int)
    requires Content(before) < range && |page| == |range| - Size(before)
    requires Content(before) + page != range
    ensures Settle(Content(before) + page, Size(before), |range|, code) == (true, Some(Content(before) + page))
    ensures !Faithful(range, Size(before), page, code)
  {
    assert Content(before) + range[Size(before)..] == range;
  }

  /** One call of download_chunk: what it returns and leaves of the part. */
  function Attempted(part: Part, want: int, canOpen: bool, pieces: seq<Bytes>, code: int): (bool, Part) {
    if Size(part) >= want then (true, part)
    else if !canOpen then (false, part)
    else Settle(Content(part) + Flatten(pieces), Size(part), want, code)
  }

  /** A part file on disk. */
  class PartFile {
    var part: Part

    constructor ()
      ensures part == None
    {
      part := None;
    }

    /** One attempt at bytes [start + Size, end] of the remote file. The environment decides
        whether the file can be opened, which pieces libcurl hands to the write callback, and
        the final status code. */
    method DownloadChunk(start: int, end: int, canOpen: bool, pieces: seq<Bytes>, code: int)
      returns (ok: bool)
      requires start <= end
      modifies this
      ensures (ok, part) == Attempted(old(part), end - start + 1, canOpen, pieces, code)
      ensures ok <==> old(Size(part)) >= end - start + 1
                      || (canOpen && old(Size(part)) + |Flatten(pieces)| >= end - start + 1)
    {
      var have := Size(part);
      var want := end - start + 1;
      if have >= want {
        return true;
      }
      if !canOpen {
        return false;
      }
      part := Opened(part);
      assert part.value == old(Content(part));
      var i := 0;
      assert part.value == old(Content(part)) + Flatten(pieces[..0]);
      while i < |pieces|
        invariant 0 <= i <= |pieces|
        invariant part == Some(old(Content(part)) + Flatten(pieces[..i]))
      {
        FlattenAppend(pieces[..i], pieces[i]);
        assert pieces[..i + 1] == pieces[..i] + [pieces[i]];
        assert old(Content(part)) + Flatten(pieces[..i + 1]) == part.value + pieces[i];
        part := Some(part.value + pieces[i]);
        i := i + 1;
      }
      assert pieces[..|pieces|] == pieces;
      var onDisk := Size(part);
      if onDisk >= want {
        return true;
      }
      if RangeServed(code) && onDisk > have {
        return false;
      }
      if have <= 0 {
        part := None;
      } else {
        part := Some(part.value[..have]);
        assert part.value == old(Content(part));
      }
      return false;
    }
  }

}
