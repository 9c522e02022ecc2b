/** The pairing file as one caller sees it: the directory changed step by step, any step
    of which may fail. What other callers do meanwhile is in `PairFile`. */
module PairStore {
  import opened Wrappers
  import opened Pairing
  import opened PairFile

  datatype Error = NotFound | NotACode | NotPublished

  /** `read`: what the final path holds, parsed. */
  function ReadFinal(fs: Fs): Result<Pairing, Error> {
    if fs.final.None? || fs.final.value !in fs.inodes then Err(NotFound)
    else match Parse(fs.inodes[fs.final.value])
      case None => Err(NotACode)
      case Some(p) => Ok(p)
  }

  /** Where a publication fails: creating the file, after `n` characters of it or at the
      sync, moving it, or only removing its temporary name. */
  datatype Fault = NoFault | AtCreate | AtWrite(n: nat) | AtMove | AtUnlink

  class Directory {
    var inodes: map<Ino, string>
    var final: Option<Ino>
    var tmps: map<Pid, Ino>

    ghost function Value(): Fs
      reads this
    {
      Fs(inodes, final, tmps)
    }

    /** Names name inodes, and each process's temporary name its own. */
    ghost predicate Valid()
      reads this
    {
      && (final.Some? ==> final.value in inodes)
      && (forall pid | pid in tmps :: tmps[pid] in inodes)
      && (forall pid, q | pid in tmps && q in tmps && pid != q :: tmps[pid] != tmps[q])
    }

    /** The process's temporary name is not the published inode's. */
    ghost predicate Clean(pid: Pid)
      reads this
    {
      pid in tmps ==> final != Some(tmps[pid])
    }

    constructor ()
      ensures Valid() && Value() == Init().fs && forall pid :: Clean(pid)
    {
      inodes, final, tmps := map[], None, map[];
    }

    method CreatePrivate(pid: Pid, newIno: Ino) returns (ino: Ino)
      requires newIno !in inodes
      modifies this`inodes, this`tmps
      ensures Value() == Create(old(Value()), pid, newIno)
      ensures pid in tmps && ino == tmps[pid]
    {
      if pid !in tmps {
        tmps := tmps[pid := newIno];
      }
      ino := tmps[pid];
      inodes := inodes[ino := ""];
    }

    /** `write_all`, or as much of it as goes out before a failure: however the text is cut
        into writes, it arrives in order. */
    method WriteAll(ino: Ino, text: string, limit: nat)
      requires ino in inodes && inodes[ino] == "" && limit <= |text|
      modifies this`inodes
      ensures inodes == old(inodes)[ino := text[..limit]]
    {
      var n := 0;
      assert text[..0] == "";
      while n < limit
        invariant n <= limit && inodes == old(inodes)[ino := text[..n]]
      {
        var m :| n < m <= limit;
        SpliceExtends(text, n, m);
        inodes := inodes[ino := Splice(inodes[ino], n, text[n..m])];
        n := m;
      }
    }

    /** The inode the process's temporary name will name. */
    function TmpIno(pid: Pid, newIno: Ino): Ino
      reads this
    {
      if pid in tmps then tmps[pid] else newIno
    }

    /** `publish` up to the sync: the text is in the temporary file, or as much of it as
        went out before a failure. */
    method WriteTmp(pid: Pid, text: string, newIno: Ino, fault: Fault) returns (written: bool)
      requires Valid() && newIno !in inodes && (fault.AtWrite? ==> fault.n <= |text|)
      modifies this`inodes, this`tmps
      ensures Valid() && written == !(fault.AtCreate? || fault.AtWrite?)
      ensures fault.AtCreate? ==> inodes == old(inodes) && tmps == old(tmps)
      ensures !fault.AtCreate? ==>
                && tmps == old(tmps)[pid := old(TmpIno(pid, newIno))]
                && inodes == old(inodes)[old(TmpIno(pid, newIno)) := if fault.AtWrite? then text[..fault.n] else text]
    {
      if fault.AtCreate? {
        return false;
      }
      var ino := CreatePrivate(pid, newIno);
      assert inodes == old(inodes)[ino := ""] && tmps == old(tmps)[pid := ino];
      WriteAll(ino, text, if fault.AtWrite? then fault.n else |text|);
      assert text[..|text|] == text;
      written := !fault.AtWrite?;
    }

    /** `publish` from the sync on: the link or the rename, then the unlink whatever came
        of it. A rename of a file onto its own other name leaves both. */
    method MoveTmp(pid: Pid, replace: bool, fault: Fault) returns (moved: bool)
      requires Valid() && pid in tmps
      modifies this`final, this`tmps
      ensures Valid() && moved == (!fault.AtMove? && (replace || old(final).None?))
      ensures final == if moved then Some(old(tmps)[pid]) else old(final)
      ensures tmps == if !fault.AtUnlink? || (moved && replace && old(final) != Some(old(tmps)[pid]))
                      then old(tmps) - {pid} else old(tmps)
    {
      var ino := tmps[pid];
      moved := !fault.AtMove? && (replace || final.None?);
      if moved && final != Some(ino) {
        final := Some(ino);
        if replace {
          tmps := tmps - {pid};
        }
      }
      if !fault.AtUnlink? {
        tmps := tmps - {pid};
      }
    }

    /** `publish`: a replacement takes its place, a mint only where there is no file, and
        nothing is published but a whole code. The file there was is not written, exactly
        if the temporary name was not already its name; and it becomes that exactly if a
        link is made whose temporary name cannot be removed. */
    method Publish(pid: Pid, p: Pairing, replace: bool, newIno: Ino, fault: Fault) returns (moved: bool)
      requires Valid() && newIno !in inodes && (fault.AtWrite? ==> fault.n <= |Text(p)|)
      modifies this
      ensures Valid() && inodes.Keys <= old(inodes).Keys + {newIno}
      ensures moved <==> (fault.NoFault? || fault.AtUnlink?) && (replace || old(final).None?)
      ensures moved ==> final.Some? && inodes[final.value] == Text(p)
      ensures !moved ==> final == old(final)
      ensures old(final).Some? && old(Clean(pid)) ==>
                && (moved ==> final != old(final))
                && old(final).value in inodes && inodes[old(final).value] == old(inodes[final.value])
      ensures !old(Clean(pid)) && !fault.AtCreate? ==>
                && old(final).value in inodes
                && inodes[old(final).value] == (if fault.AtWrite? then Text(p)[..fault.n] else Text(p))
      ensures old(Clean(pid)) ==> (Clean(pid) <==> !(fault.AtUnlink? && moved && !replace))
      ensures forall q | q != pid :: (q in tmps <==> q in old(tmps)) && (q in tmps ==> tmps[q] == old(tmps)[q])
    {
      hide Text;
      var written := WriteTmp(pid, Text(p), newIno, fault);
      if !written {
        return false;
      }
      moved := MoveTmp(pid, replace, fault);
    }

    /** `load`: the code there is; else the one minted, if it could be published. */
    method Load(pid: Pid, minted: Pairing, newIno: Ino, fault: Fault) returns (r: Result<Pairing, Error>)
      requires Valid() && (final.None? ==> newIno !in inodes) && minted.port != 0
      requires fault.AtWrite? ==> fault.n <= |Text(minted)|
      modifies this
      ensures Valid() && r == ReadFinal(Value()) && inodes.Keys <= old(inodes).Keys + {newIno}
      ensures old(final).Some? ==> Value() == old(Value())
      ensures old(final).None? ==> r == if fault.NoFault? || fault.AtUnlink? then Ok(minted) else Err(NotFound)
      ensures old(Clean(pid)) ==> (Clean(pid) <==> !(fault.AtUnlink? && old(final).None?))
    {
      r := ReadFinal(Fs(inodes, final, tmps));
      if r == Err(NotFound) {
        var _ := Publish(pid, minted, false, newIno, fault);
        TextParses(minted);
        hide Text, Parse;
        r := ReadFinal(Fs(inodes, final, tmps));
      }
    }

    /** `reset`: where no code can be had it fails at once; where the new one cannot be
        published it fails with the code there was still in place; otherwise the new code
        is in place and returned, and the inode it replaced still holds the old one. */
    method Reset(pid: Pid, minted: Pairing, newer: Pairing, newIno: Ino, nextIno: Ino, mintFault: Fault, fault: Fault)
      returns (r: Result<Pairing, Error>)
      requires Valid() && newIno !in inodes && nextIno !in inodes && newIno != nextIno
      requires minted.port != 0 && newer.port != 0
      requires mintFault.AtWrite? ==> mintFault.n <= |Text(minted)|
      requires fault.AtWrite? ==> fault.n <= |Text(newer)|
      modifies this
      ensures Valid()
      ensures r.Ok? ==> r == Ok(newer) && ReadFinal(Value()) == r
      ensures old(final).Some? ==>
                && (r.Ok? <==> ReadFinal(old(Value())).Ok? && (fault.NoFault? || fault.AtUnlink?))
                && (r.Err? ==> final == old(final))
      ensures old(final).Some? && old(Clean(pid)) ==>
                && old(final).value in inodes && inodes[old(final).value] == old(inodes[final.value])
                && (r.Ok? ==> final != old(final))
      ensures old(final).None? ==>
                (r.Ok? <==> (mintFault.NoFault? || mintFault.AtUnlink?) && (fault.NoFault? || fault.AtUnlink?))
    {
      r := Load(pid, minted, newIno, mintFault);
      if r.Ok? {
        var moved := Publish(pid, newer, true, nextIno, fault);
        if !moved {
          return Err(NotPublished);
        }
        TextParses(newer);
        hide Text, Parse;
        r := Load(pid, minted, nextIno, NoFault);
      }
    }
  }
}
