/** The quarter-round test program of main.c: its own copy of the quarter
    round, working on a state record that also carries a round count, and
    the known-answer check of RFC 7539 section 2.2.1. */
module MainTest {
  import opened Words
  import ChaCha20

  /** main.c's cipher state: the 16 words and a round count that no code
      reads. */
  datatype CryptState = CryptState(ccState: seq<bv32>, rounds: u32)

  /** main.c's QuarterRound, step by step on the record: read words p1..p4,
      run the four add-xor-rotate steps, write the words back in the order
      p1, p2, p3, p4. It changes exactly what chacha20.c's quarter round
      changes, so the two copies compute the same function, and it leaves
      the round count alone. */
  method QuarterRound(state: CryptState, p1: nat, p2: nat, p3: nat, p4: nat) returns (r: CryptState)
    requires |state.ccState| == 16 && p1 < 16 && p2 < 16 && p3 < 16 && p4 < 16
    ensures r.rounds == state.rounds
    ensures r.ccState == ChaCha20.QuarterRound(state.ccState, p1, p2, p3, p4)
    ensures forall i :: 0 <= i < 16 && i != p1 && i != p2 && i != p3 && i != p4 ==> r.ccState[i] == state.ccState[i]
  {
    var a := state.ccState[p1];
    var b := state.ccState[p2];
    var c := state.ccState[p3];
    var d := state.ccState[p4];

    a := Add(a, b);
    d := Xor(d, a);
    d := Rol(d, 16);

    c := Add(c, d);
    b := Xor(b, c);
    b := Rol(b, 12);

    a := Add(a, b);
    d := Xor(d, a);
    d := Rol(d, 8);

    c := Add(c, d);
    b := Xor(b, c);
    b := Rol(b, 7);

    r := state.(ccState := state.ccState[p1 := a][p2 := b][p3 := c][p4 := d]);
  }

  /** The state main.c starts from (RFC 7539 section 2.2.1). */
  const TestState: seq<bv32> := [
    0x879531e0, 0xc5ecf37d, 0x516461b1, 0xc9a62f8a,
    0x44c20ef3, 0x3390af7f, 0xd9fc690b, 0x2a5f714c,
    0x53372767, 0xb00a5631, 0x974c541a, 0x359e9963,
    0x5c971061, 0x3d631689, 0x2098d9d6, 0x91dbd320]

  /** The state RFC 7539 section 2.2.1 lists after the quarter round on
      words 2, 7, 8 and 13 of TestState. */
  const ExpectedState: seq<bv32> := [
    0x879531e0, 0xc5ecf37d, 0xbdb886dc, 0xc9a62f8a,
    0x44c20ef3, 0x3390af7f, 0xd9fc690b, 0xcfacafd2,
    0xe46bea80, 0xb00a5631, 0x974c541a, 0x359e9963,
    0x5c971061, 0xccc07c79, 0x2098d9d6, 0x91dbd320]

  /** The quarter round of the test, on the state main.c starts from. */
  lemma StateQuarterRoundVector()
    ensures ChaCha20.QuarterRound(TestState, 2, 7, 8, 13) == ExpectedState
  {
  }

  /** main.c's test: one quarter round on words 2, 7, 8, 13 of the test
      state, then a flag that is 1 exactly when the four words are the
      expected ones. The flag is 1, and the whole state is the one RFC 7539
      section 2.2.1 lists, the twelve other words unchanged. */
  method QuarterRoundTest() returns (state: CryptState, flag: int)
    ensures flag == 1
    ensures state.rounds == 0
    ensures state.ccState == ExpectedState
  {
    state := CryptState(TestState, 0);
    state := QuarterRound(state, 2, 7, 8, 13);
    StateQuarterRoundVector();

    flag := 0;
    if state.ccState[2] == 0xbdb886dc && state.ccState[7] == 0xcfacafd2
      && state.ccState[8] == 0xe46bea80 && state.ccState[13] == 0xccc07c79
    {
      flag := 1;
    }
  }
}
