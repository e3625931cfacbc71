/** The client-wide state of src/store/useAppStore.js: the wallet, the
    dashboard's cards and the legacy rotating QR secret. */
module AppStore {
  import opened Common
  import Api

  const InitialSecret := "event-001"
  const IntervalSec := 8

  /** `${s}:${Math.floor(t / (intervalSec * 1000))}`: the secret extended by
      the number of the `intervalSec`-second window that `t` (milliseconds)
      falls in. Dafny's `/` rounds down for a positive divisor, as `Math.floor` does. */
  function RotatedSecret(s: string, t: int, intervalSec: int): string
    requires intervalSec > 0
  {
    s + ":" + IntToString(t / (intervalSec * 1000))
  }

  class Store {
    /** `wallet.address`, or `None` for a null wallet. */
    var wallet: Option<string>
    var nfts: seq<Api.Card>
    var qrSecret: string
    var qrIntervalSec: int

    /** No operation of the store changes the interval, which stays 8. */
    predicate Valid()
      reads this
    {
      qrIntervalSec == IntervalSec
    }

    constructor ()
      ensures Valid()
      ensures wallet == None && nfts == [] && qrSecret == InitialSecret
    {
      wallet := None;
      nfts := [];
      qrSecret := InitialSecret;
      qrIntervalSec := IntervalSec;
    }

    method SetWallet(w: Option<string>)
      requires Valid()
      modifies this
      ensures Valid()
      ensures wallet == w && nfts == old(nfts) && qrSecret == old(qrSecret)
    {
      wallet := w;
    }

    method SetNFTs(cards: seq<Api.Card>)
      requires Valid()
      modifies this
      ensures Valid()
      ensures nfts == cards && wallet == old(wallet) && qrSecret == old(qrSecret)
    {
      nfts := cards;
    }

    /** `rotateSecret()` at time `nowMs` (`Date.now()`). */
    method RotateSecret(nowMs: int)
      requires Valid()
      modifies this
      ensures Valid()
      ensures qrSecret == RotatedSecret(old(qrSecret), nowMs, IntervalSec)
      ensures wallet == old(wallet) && nfts == old(nfts)
    {
      var s := qrSecret;
      var t := nowMs;
      qrSecret := s + ":" + IntToString(t / (qrIntervalSec * 1000));
    }
  }

  /** The decimal text of a non-negative window number reads back as that number. */
  lemma WindowText(t: int, window: int)
    requires t >= 0 && window > 0
    ensures var w := IntToString(t / window);
      |w| >= 1 && AllDigits(w) && ParseDecimal(w) == t / window
  {
    NatToStringRoundTrip(t / window);
  }

  /** Rotation strictly extends the secret: the old secret, ':' and at
      least one more character; for a time after the epoch the rest is the
      decimal window number. */
  lemma RotationExtends(s: string, t: int, intervalSec: int)
    requires intervalSec > 0
    ensures var r := RotatedSecret(s, t, intervalSec);
      |r| > |s| + 1 && StartsWith(r, s + ":")
    ensures t >= 0 ==> var r := RotatedSecret(s, t, intervalSec);
      AllDigits(r[|s| + 1..]) && ParseDecimal(r[|s| + 1..]) == t / (intervalSec * 1000)
  {
    var d := intervalSec * 1000;
    var r := RotatedSecret(s, t, intervalSec);
    var w := IntToString(t / d);
    assert d > 0;
    if t >= 0 {
      WindowText(t, d);
    } else {
      assert |NatToString(-(t / d))| >= 1 by {
        if -(t / d) >= 10 {
          assert NatToString(-(t / d)) == NatToString(-(t / d) / 10) + [DigitChar(-(t / d) % 10)];
        }
      }
    }
    assert r == (s + ":") + w;
    assert r[..|s| + 1] == s + ":";
    assert r[|s| + 1..] == w;
  }

  /** Two rotations of the same secret agree exactly when the two times
      (after the epoch) fall in the same window. */
  lemma SameWindowSameSecret(s: string, t1: int, t2: int, intervalSec: int)
    requires t1 >= 0 && t2 >= 0 && intervalSec > 0
    ensures RotatedSecret(s, t1, intervalSec) == RotatedSecret(s, t2, intervalSec) <==>
            t1 / (intervalSec * 1000) == t2 / (intervalSec * 1000)
  {
    if RotatedSecret(s, t1, intervalSec) == RotatedSecret(s, t2, intervalSec) {
      RotationExtends(s, t1, intervalSec);
      RotationExtends(s, t2, intervalSec);
    }
  }
}
