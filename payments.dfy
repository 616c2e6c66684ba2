/**
 * The payment guards: which transaction statuses block a new payment
 * attempt or a status callback, and the pipe-separated string whose digest
 * binds a transaction to the gateway request.
 */
module Payments {
  import opened Models

  const MerchantKey: string := "##########"
  const MerchantSalt: string := "##########"

  const SuccessPage: string := "custom success page url"
  const FailurePage: string := "custom failure page url"

  /** The failure status the callback view compares against (not the enumeration's FAILURE). */
  const FAILED: string := "FAILED"

  /** An existing transaction for the same order and id in this status blocks a new payment. */
  predicate BlocksPayment(status: string) {
    status == INITIATED || status == SUCCESS
  }

  /** A transaction in this status refuses every further status callback. */
  predicate Settled(status: string) {
    status == SUCCESS || status == FAILURE
  }

  /** A status stored as "FAILED" is not settled: the transaction takes another callback. */
  lemma FailedIsNotSettled()
    ensures !Settled(FAILED) && !BlocksPayment(FAILED)
    ensures Settled(FAILURE) && !BlocksPayment(FAILURE)
  {
  }

  /** Fields joined with '|'. */
  function JoinPipes(fields: seq<string>): string
    decreases |fields|
  {
    if fields == [] then ""
    else if |fields| == 1 then fields[0]
    else JoinPipes(fields[..|fields| - 1]) + "|" + fields[|fields| - 1]
  }

  /**
   * The string hashed for the payment gateway, as make_payment concatenates
   * it: merchant key, transaction id, grand total, buyer name, buyer email,
   * ten empty fields, merchant salt.
   */
  function HashString(txnId: string, grandTotalText: string, buyerName: string, buyerEmail: string): (s: string)
    ensures s == JoinPipes([MerchantKey, txnId, grandTotalText, buyerName, buyerEmail]
                           + seq(10, _ => "") + [MerchantSalt])
  {
    var head := [MerchantKey, txnId, grandTotalText, buyerName, buyerEmail];
    JoinFive(MerchantKey, txnId, grandTotalText, buyerName, buyerEmail);
    JoinBlanks(9);
    assert seq(9, _ => '|') == "|||||||||";
    JoinPipesAppend(head, seq(10, _ => ""));
    JoinPipesSnoc(head + seq(10, _ => ""), MerchantSalt);
    MerchantKey + "|" + txnId + "|" + grandTotalText + "|" + buyerName + "|" + buyerEmail + "|"
      + "||||||||||" + MerchantSalt
  }

  /** Joining one more field appends a pipe and the field. */
  lemma JoinPipesSnoc(fields: seq<string>, x: string)
    requires fields != []
    ensures JoinPipes(fields + [x]) == JoinPipes(fields) + "|" + x
  {
    assert (fields + [x])[..|fields|] == fields;
  }

  /** Joining two non-empty field lists puts one pipe between their joins. */
  lemma {:induction false} JoinPipesAppend(a: seq<string>, b: seq<string>)
    requires a != [] && b != []
    ensures JoinPipes(a + b) == JoinPipes(a) + "|" + JoinPipes(b)
    decreases |b|
  {
    var last := b[|b| - 1];
    if |b| == 1 {
      assert b == [last];
      JoinPipesSnoc(a, last);
    } else {
      var init := b[..|b| - 1];
      assert a + b == (a + init) + [last];
      calc {
        JoinPipes(a + b);
        { JoinPipesSnoc(a + init, last); }
        JoinPipes(a + init) + "|" + last;
        { JoinPipesAppend(a, init); }
        JoinPipes(a) + "|" + JoinPipes(init) + "|" + last;
        JoinPipes(a) + "|" + (JoinPipes(init) + "|" + last);
      }
    }
  }

  /** n + 1 empty fields join to n pipes. */
  lemma {:induction false} JoinBlanks(n: nat)
    ensures JoinPipes(seq(n + 1, _ => "")) == seq(n, _ => '|')
  {
    if n > 0 {
      var blanks := seq(n + 1, _ => "");
      assert blanks == seq(n, _ => "") + [""];
      JoinBlanks(n - 1);
      JoinPipesSnoc(seq(n, _ => ""), "");
      assert seq(n, _ => '|') == seq(n - 1, _ => '|') + "|";
    }
  }

  /** Joining five fields. */
  lemma JoinFive(a: string, b: string, c: string, d: string, e: string)
    ensures JoinPipes([a, b, c, d, e]) == a + "|" + b + "|" + c + "|" + d + "|" + e
  {
    assert JoinPipes([a]) == a;
    assert [a, b] == [a] + [b];
    JoinPipesSnoc([a], b);
    assert [a, b, c] == [a, b] + [c];
    JoinPipesSnoc([a, b], c);
    assert [a, b, c, d] == [a, b, c] + [d];
    JoinPipesSnoc([a, b, c], d);
    assert [a, b, c, d, e] == [a, b, c, d] + [e];
    JoinPipesSnoc([a, b, c, d], e);
  }
}
