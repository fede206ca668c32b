/** The seekable stream cipher: a keystream and the position the next byte will use. */
module StreamCipher {
  import opened Bytes

  class StreamCipher {
    const ks: Keystream
    var pos: nat

    constructor (ks: Keystream)
      ensures this.ks == ks && pos == 0
    {
      this.ks := ks;
      pos := 0;
    }

    method Seek(index: nat)
      modifies this
      ensures pos == index
    {
      pos := index;
    }

    /** Combines `buffer[lo..hi]` with the keystream in place and advances by the bytes combined. */
    method ApplyKeystream(buffer: array<Byte>, lo: nat, hi: nat)
      requires lo <= hi <= buffer.Length
      modifies this, buffer
      ensures pos == old(pos) + (hi - lo)
      ensures buffer[lo..hi] == Crypt(old(buffer[lo..hi]), old(pos), ks)
      ensures buffer[..lo] == old(buffer[..lo]) && buffer[hi..] == old(buffer[hi..])
    {
      var i := lo;
      while i < hi
        invariant lo <= i <= hi
        invariant pos == old(pos) + (i - lo)
        invariant forall j | lo <= j < i :: buffer[j] == Xor(old(buffer[j]), ks(old(pos) + (j - lo)))
        invariant forall j | 0 <= j < buffer.Length && !(lo <= j < i) :: buffer[j] == old(buffer[j])
      {
        buffer[i] := Xor(buffer[i], ks(pos));
        pos := pos + 1;
        i := i + 1;
      }
    }
  }
}
