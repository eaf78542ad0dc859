/** A pair of freshly opened channels, over the toy engine: a place where channel runs can start. */
module ArqSample {
  import opened Results
  import opened Crypto
  import opened BigEndian
  import opened Sessions
  import opened Devices
  import opened Sample
  import opened SendWindow
  import opened Arq
  import ArqRuns

  function SampleDevice(me: Bytes32, peer: Bytes32): DeviceState {
    var s := SessionState(peer, peer, Key(SessionKey, [], ALICE, BOB), Key(MacKey, [], ALICE, BOB), 0, 0, {});
    DeviceState(me, me, me, map[peer := s], map[], map[], map[])
  }

  function SampleEnd(me: Bytes32, peer: Bytes32, cfg: Config): End {
    End(SampleDevice(me, peer), cfg, IDLE_SENDER, ReceiveBuffer.FRESH_RECEIVER,
        Log(map[], {}, {}, None, [], {}, {}, {}))
  }

  function SampleWorld(a: Config, b: Config): ArqRuns.World {
    ArqRuns.World(SampleEnd(ALICE, BOB, a), SampleEnd(BOB, ALICE, b))
  }

  lemma SampleStarts(a: Config, b: Config)
    ensures ArqRuns.Start(Toy(), SampleWorld(a, b))
  {
    ToyIsLawful();
    AliceIsNotBob();
  }

  /** Under the session key of these channels a ciphertext is 66 bytes longer than its plaintext. */
  lemma SampleSeals(nonce: Bytes12, body: Bytes)
    ensures |Toy().seal(Key(SessionKey, [], ALICE, BOB), nonce, body)| == 66 + |body|
  {
  }
}
