/** The far side of write(2): bytes the kernel has taken, in order. */
module Wire {
  import opened Bytes

  datatype WriteResult = Wrote(n: nat) | WouldBlock | Failed {
    predicate Takes() { Wrote? && n > 0 }

    /** An error, or nothing taken without a reason. */
    predicate Refuses() { Failed? || (Wrote? && n == 0) }
  }

  /** The descriptor took something every time. */
  ghost predicate Takes(answers: seq<WriteResult>) {
    forall i :: 0 <= i < |answers| ==> answers[i].Takes()
  }

  ghost predicate Refused(answers: seq<WriteResult>) {
    exists i :: 0 <= i < |answers| && answers[i].Refuses()
  }

  ghost predicate Blocked(answers: seq<WriteResult>) {
    exists i :: 0 <= i < |answers| && answers[i].WouldBlock?
  }

  /** The descriptor was asked again only while it took something. */
  ghost predicate Patient(answers: seq<WriteResult>) {
    forall i :: 0 <= i < |answers| - 1 ==> answers[i].Takes()
  }

  /** One more answer. */
  lemma {:induction false} Asked(answers: seq<WriteResult>, r: WriteResult)
    requires Takes(answers)
    ensures Patient(answers + [r]) && (Takes(answers + [r]) <==> r.Takes())
    ensures (Refused(answers + [r]) <==> r.Refuses()) && (Blocked(answers + [r]) <==> r.WouldBlock?)
  {
    assert (answers + [r])[|answers|] == r;
  }

  lemma {:induction false} NeverStopped(answers: seq<WriteResult>)
    requires Takes(answers)
    ensures Patient(answers) && !Refused(answers) && !Blocked(answers)
  {
  }

  /** A non-blocking descriptor. Each call may take any prefix of what it is
      offered, or nothing, or fail; the outcome is arbitrary. */
  class Wire {
    var sent: seq<Byte>
    ghost var answers: seq<WriteResult>  // what it has answered, call by call

    constructor ()
      ensures sent == [] && answers == []
    {
      sent, answers := [], [];
    }

    method Write(data: seq<Byte>) returns (r: WriteResult)
      modifies this
      ensures r.Wrote? ==> r.n <= |data|
      ensures sent == old(sent) + if r.Wrote? then data[..r.n] else []
      ensures answers == old(answers) + [r]
    {
      var n: nat :| n <= |data|;
      if * {
        r := WouldBlock;
      } else if * {
        r := Failed;
      } else {
        r := Wrote(n);
        sent := sent + data[..n];
      }
      answers := answers + [r];
    }

    /** A stream socket: a successful write of something takes at least one byte. */
    method SocketWrite(data: seq<Byte>) returns (r: WriteResult)
      modifies this
      ensures r.Wrote? ==> r.n <= |data| && (|data| > 0 ==> r.n > 0)
      ensures sent == old(sent) + if r.Wrote? then data[..r.n] else []
      ensures answers == old(answers) + [r]
    {
      ghost var before := answers;
      r := Write(data);
      if r.Wrote? && r.n == 0 && |data| > 0 {
        r := WouldBlock;
      }
      answers := before + [r];
    }
  }
}
