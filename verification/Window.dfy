/** The fixed-size text window shared by the boot tracker and the autoresponder
    (src/boot_stage.c, src/autoresponder.c): the newest bytes in a flat buffer with
    room for a terminator, and the position up to which they have been scanned. */
module Window {
  import opened Bytes

  const WINDOW_CAP := 8192
  const WINDOW_MAX := WINDOW_CAP - 1

  class Window {
    const buf: array<Byte>
    var len: nat
    var searchOffset: nat

    ghost predicate Valid()
      reads this
    {
      buf.Length == WINDOW_CAP && searchOffset <= len <= WINDOW_MAX
    }

    ghost function Text(): seq<Byte>
      requires Valid()
      reads this, buf
    {
      buf[..len]
    }

    constructor ()
      ensures Valid() && Text() == [] && searchOffset == 0 && fresh(buf)
    {
      buf := new Byte[WINDOW_CAP](_ => 0);
      len, searchOffset := 0, 0;
    }

    method Reset()
      requires Valid()
      modifies this
      ensures Valid() && Text() == [] && searchOffset == 0
    {
      len, searchOffset := 0, 0;
    }

    /** Adds data, dropping the oldest bytes on overflow; an oversized chunk leaves
        only its own tail. The scan position moves along with the text. */
    method Append(data: seq<Byte>)
      requires Valid()
      modifies this, buf
      ensures Valid() && Text() == Suffix(old(Text()) + data, WINDOW_MAX)
      ensures searchOffset == if |data| >= WINDOW_CAP then 0
                              else old(searchOffset) - Min(old(searchOffset), |old(Text()) + data| - |Text()|)
    {
      if |data| >= buf.Length {
        var keep := buf.Length - 1;
        Store(0, data[|data| - keep..]);
        len := keep;
        searchOffset := 0;
        return;
      }
      if len + |data| > buf.Length - 1 {
        var need := len + |data| - (buf.Length - 1);
        searchOffset := if searchOffset > need then searchOffset - need else 0;
        DropFront(need);
      }
      Store(len, data);
      len := len + |data|;
    }

    method Store(at: nat, data: seq<Byte>)
      requires Valid() && at + |data| <= WINDOW_MAX
      modifies buf
      ensures buf[..at + |data|] == old(buf[..at]) + data
    {
      forall i | 0 <= i < |data| {
        buf[at + i] := data[i];
      }
    }

    /** Removes the first `n` bytes by moving the rest down. */
    method DropFront(n: nat)
      requires buf.Length == WINDOW_CAP && n <= len <= WINDOW_MAX && searchOffset <= len - n
      modifies this`len, buf
      ensures Valid() && len == old(len) - n && buf[..len] == old(buf[n..len])
    {
      forall i | 0 <= i < len - n {
        buf[i] := buf[n + i];
      }
      len := len - n;
    }
  }
}
