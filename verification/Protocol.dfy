/** Broker messages and their line codec. JSON and base64 are outside the model:
    a codec is any pair of functions of which decoding undoes encoding. */
module Protocol {
  import opened Bytes

  /** Device output, which clients may receive merged, and everything else. The
      timestamp is the number as transmitted. */
  datatype Msg = Output(data: seq<Byte>, timestamp: nat) | Other(content: nat)

  datatype Codec = Codec(encode: Msg -> seq<Byte>, decode: seq<Byte> -> Option<Msg>)

  /** Lines are nonempty and decode to the message they encode. */
  ghost predicate Lawful(c: Codec) {
    forall m :: c.encode(m) != [] && c.decode(c.encode(m)) == Some(m)
  }

  /** The assumption on codecs can be met. */
  lemma {:induction false} LawfulCodecExists()
    ensures exists c :: Lawful(c)
  {
    var c := Codec(m => Plain(m), s => PlainDecode(s));
    forall m ensures c.encode(m) != [] && c.decode(c.encode(m)) == Some(m) {
      var m' :| Plain(m') == Plain(m) && PlainDecode(Plain(m)) == Some(m');
      PlainInjective(m, m');
    }
    assert Lawful(c);
  }

  ghost function Ones(n: nat): seq<Byte> { seq(n, _ => 1) }

  ghost function Plain(m: Msg): seq<Byte> {
    match m
    case Output(data, ts) => [0] + Ones(ts) + [0] + data
    case Other(k) => [1] + Ones(k)
  }

  ghost function PlainDecode(s: seq<Byte>): Option<Msg> {
    if exists m :: Plain(m) == s then
      var m :| Plain(m) == s;
      Some(m)
    else None
  }

  lemma {:induction false} PlainInjective(a: Msg, b: Msg)
    ensures Plain(a) == Plain(b) ==> a == b
  {
    var s, s' := Plain(a), Plain(b);
    if a.Output? && b.Output? {
      var t, t' := a.timestamp, b.timestamp;
      if t < t' {
        assert s[t + 1] == 0 && s'[t + 1] == 1;
      } else if t' < t {
        assert s[t' + 1] == 1 && s'[t' + 1] == 0;
      } else {
        assert s[t + 2..] == a.data && s'[t + 2..] == b.data;
      }
    } else if a.Other? && b.Other? {
      assert |s| == a.content + 1 && |s'| == b.content + 1;
    } else {
      assert s[0] != s'[0];
    }
  }
}
