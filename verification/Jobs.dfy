/** Job descriptors shared by the broker, its workers and the gateways. */
module Jobs {

  datatype Option<+T> = None | Some(value: T)

  datatype Result<+T, +E> = Ok(value: T) | Err(error: E)

  type Byte = x: int | 0 <= x < 256

  type Bytes = seq<Byte>

  /** Voice settings of a TTS request; a zero value means "pool default". */
  datatype Voice = Voice(
    speaker: string, language: string, outFormat: string,
    speed: real, gain: real, phraseBreak: bool)

  /** What a job carries for its worker. `NoPayload` is Go's nil interface. */
  datatype Payload =
    | TtsPayload(text: string, voice: Voice)
    | SttPayload
    | NoPayload

  /** One submitted job. Its channels are its own, so `id` also names
      `ResultCh` (whose buffer holds `capacity` results) and `ReadyCh`,
      which is nil unless `hasReady`. */
  datatype Job = Job(
    id: nat, service: string, pool: string, priority: int,
    payload: Payload, hasReady: bool, capacity: nat)

  /** No value occurs twice. */
  ghost predicate Distinct<T(!new)>(s: seq<T>) {
    forall i, j | 0 <= i < j < |s| :: s[i] != s[j]
  }

  lemma DistinctCount<T(!new)>(s: seq<T>, x: T)
    requires Distinct(s)
    ensures multiset(s)[x] <= 1
  {
    if |s| > 0 {
      var t := s[..|s| - 1];
      assert s == t + [s[|s| - 1]];
      DistinctCount(t, x);
      if x == s[|s| - 1] {
        assert x !in t;
      }
    }
  }

  lemma CountDistinct<T(!new)>(s: seq<T>)
    requires forall x :: multiset(s)[x] <= 1
    ensures Distinct(s)
  {
    forall i, j | 0 <= i < j < |s|
      ensures s[i] != s[j]
    {
      assert s == s[..j] + s[j..];
      assert multiset(s) == multiset(s[..j]) + multiset(s[j..]);
      assert s[i] in s[..j] && s[j] in s[j..];
      var x := s[i];
      assert multiset(s)[x] == multiset(s[..j])[x] + multiset(s[j..])[x] <= 1;
      assert multiset(s[..j])[x] >= 1;
    }
  }
}
