/** What the playback and the echo reference share: samples are integers. */
module Audio {
  function Min(a: nat, b: nat): nat { if a < b then a else b }

  function Silence(n: nat): (s: seq<int>)
    ensures |s| == n && forall i :: 0 <= i < n ==> s[i] == 0
  {
    seq(n, i => 0)
  }
}
