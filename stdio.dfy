/** The part of C stdio that tinywav uses, over an in-memory file.

    A File is a FILE stream: the file's contents, the stream position and
    whether the stream was opened for writing. fread, fwrite and fseek
    become methods; the file system, fopen's path lookup and fclose are not
    modelled (a File object stands for a successfully opened stream). */
module Stdio {
  import opened LittleEndian

  function Min(a: nat, b: nat): nat
  {
    if a <= b then a else b
  }

  /** `b` with `data` written at position `pos`; a gap past the end of `b`
      reads as zero bytes. */
  function Overwrite(b: seq<Byte>, pos: nat, data: seq<Byte>): (r: seq<Byte>)
    ensures |r| == if pos + |data| <= |b| then |b| else pos + |data|
  {
    var padded := if pos <= |b| then b else b + seq(pos - |b|, _ => 0);
    padded[..pos] + data + (if pos + |data| <= |padded| then padded[pos + |data|..] else [])
  }

  /** Every byte of an overwritten file: the new data where it was
      written, the old contents elsewhere, zeros in a gap. */
  lemma OverwriteAt(b: seq<Byte>, pos: nat, data: seq<Byte>, i: nat)
    requires i < |Overwrite(b, pos, data)|
    ensures Overwrite(b, pos, data)[i] ==
              if pos <= i < pos + |data| then data[i - pos] else if i < |b| then b[i] else 0
  {
  }

  /** Writing inside the file replaces exactly the bytes written over. */
  lemma OverwriteInside(b: seq<Byte>, pos: nat, data: seq<Byte>)
    requires pos + |data| <= |b|
    ensures Overwrite(b, pos, data) == b[..pos] + data + b[pos + |data|..]
  {
  }

  /** A write changes no byte of the old file outside the range written,
      and the range written then holds the data. */
  lemma OverwriteKeeps(b: seq<Byte>, pos: nat, data: seq<Byte>)
    ensures forall i :: 0 <= i < |b| && !(pos <= i < pos + |data|) ==> Overwrite(b, pos, data)[i] == b[i]
    ensures Overwrite(b, pos, data)[pos..pos + |data|] == data
  {
    var r := Overwrite(b, pos, data);
    forall i | 0 <= i < |b| && !(pos <= i < pos + |data|)
      ensures r[i] == b[i]
    {
      OverwriteAt(b, pos, data, i);
    }
    forall i | 0 <= i < |data|
      ensures r[pos..pos + |data|][i] == data[i]
    {
      OverwriteAt(b, pos, data, pos + i);
    }
  }

  /** Writing at the end of the file appends. */
  lemma OverwriteAtEnd(b: seq<Byte>, data: seq<Byte>)
    ensures Overwrite(b, |b|, data) == b + data
  {
  }

  class File {
    var bytes: seq<Byte>
    var pos: nat
    var writable: bool

    /** A file on disk holding `contents`, not yet opened. */
    constructor (contents: seq<Byte>)
      ensures bytes == contents && pos == 0 && !writable
    {
      bytes := contents;
      pos := 0;
      writable := false;
    }

    /** The bytes from the stream position on. */
    function Unread(): seq<Byte>
      reads this
    {
      if pos <= |bytes| then bytes[pos..] else []
    }

    /** fopen(path, "wb"): the file is truncated. */
    method OpenForWrite()
      modifies this
      ensures bytes == [] && pos == 0 && writable
    {
      bytes, pos, writable := [], 0, true;
    }

    /** fopen(path, "rb"). */
    method OpenForRead()
      modifies this
      ensures bytes == old(bytes) && pos == 0 && !writable && Unread() == bytes
    {
      pos, writable := 0, false;
    }

    /** fread of `n` bytes: as many as are left, at most `n`. */
    method Read(n: nat) returns (got: seq<Byte>)
      modifies this`pos
      ensures got == old(Unread())[..Min(n, |old(Unread())|)]
      ensures Unread() == old(Unread())[|got|..]
      ensures pos == old(pos) + |got|
    {
      var u := Unread();
      got := u[..Min(n, |u|)];
      pos := pos + |got|;
    }

    /** fseek(f, offset, SEEK_CUR). */
    method Seek(offset: nat)
      modifies this`pos
      ensures pos == old(pos) + offset
      ensures Unread() == if offset <= |old(Unread())| then old(Unread())[offset..] else []
    {
      pos := pos + offset;
    }

    /** fseek(f, offset, SEEK_SET). */
    method SeekSet(offset: nat)
      modifies this`pos
      ensures pos == offset
    {
      pos := offset;
    }

    /** fwrite: on a stream opened for reading nothing is written. */
    method Write(data: seq<Byte>) returns (n: nat)
      modifies this
      ensures writable == old(writable)
      ensures old(writable) ==> n == |data| && bytes == Overwrite(old(bytes), old(pos), data)
                                && pos == old(pos) + |data|
      ensures !old(writable) ==> n == 0 && bytes == old(bytes) && pos == old(pos)
      ensures old(writable) && old(pos) == |old(bytes)| ==> bytes == old(bytes) + data
    {
      if writable {
        OverwriteAtEnd(bytes, data);
        bytes := Overwrite(bytes, pos, data);
        pos := pos + |data|;
        n := |data|;
      } else {
        n := 0;
      }
    }
  }
}
