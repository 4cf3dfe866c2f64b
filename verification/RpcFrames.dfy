module RpcFrames {
  import opened Wrappers

  // A JSON-RPC request or response; everything the proxy does not look at is in `body`.
  datatype Frame = Frame(id: int, methodName: string, body: string, error: Option<int>)

  // What the parser makes of a payload read from an upstream.
  datatype Incoming = Malformed | Parsed(frame: Frame)

  function Lower(c: char): char {
    if 'A' <= c <= 'Z' then (c as int + 32) as char else c
  }

  predicate EqualFold(a: string, b: string) {
    |a| == |b| && forall i :: 0 <= i < |a| ==> Lower(a[i]) == Lower(b[i])
  }

  // The two letters are the same, or one is the capital of the other.
  predicate SameLetter(x: char, y: char) {
    x == y || ('A' <= x <= 'Z' && y as int == x as int + 32) || ('A' <= y <= 'Z' && x as int == y as int + 32)
  }

  predicate IgnoringCase(a: string, b: string) {
    |a| == |b| && forall i :: 0 <= i < |a| ==> SameLetter(a[i], b[i])
  }

  // A method is recognised in every mixture of cases.
  lemma FoldIgnoresCase(a: string, b: string)
    ensures EqualFold(a, b) <==> IgnoringCase(a, b)
  {
    if |a| == |b| {
      forall i | 0 <= i < |a| ensures Lower(a[i]) == Lower(b[i]) <==> SameLetter(a[i], b[i]) {
        LowerIs(a[i], b[i]);
      }
    }
  }

  lemma LowerIs(x: char, y: char)
    ensures Lower(x) == Lower(y) <==> SameLetter(x, y)
  {
  }

  predicate AnsweredLocally(deny: seq<string>, f: Frame) {
    f.methodName != "" && f.id != 0 && exists i :: 0 <= i < |deny| && EqualFold(deny[i], f.methodName)
  }

  const METHOD_NOT_FOUND := -32601

  function Denial(id: int): Frame {
    Frame(id, "", "RPC call is unsafe to be called externally", Some(METHOD_NOT_FOUND))
  }
}
