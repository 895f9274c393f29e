/**
 The execution keys that tag a canonical pair. The hash is an arbitrary function; what is proved is
 that the hashed texts determine the intent, so keys of different intents differ unless the hash
 collides on exactly those texts.
 */
module ExecutionKeys {
  import opened Text

  /** The text hashed by `_batch_execution_key`. */
  function BatchText(owner: int, channel: int, run: int, request: string, fingerprint: string): string {
    "admin-agent-series-batch:" + (Decimal(owner) + ":" + (Decimal(channel) + ":" + (Decimal(run) + ":"
      + (request + ":" + fingerprint))))
  }

  /** The text hashed by `_item_execution_key`. */
  function ItemText(batchKey: string, ordinal: int, fingerprint: string): string {
    "admin-agent-series-item:" + (batchKey + ":" + (Decimal(ordinal) + ":" + fingerprint))
  }

  /** The text hashed by `_execution_key` of a single approval. */
  function SingleText(approval: int, fingerprint: string): string {
    "admin-agent-approval:" + (Decimal(approval) + ":" + fingerprint)
  }

  lemma SamePrefix(prefix: string, x: string, y: string)
    requires prefix + x == prefix + y
    ensures x == y
  {
    assert (prefix + x)[|prefix|..] == x && (prefix + y)[|prefix|..] == y;
  }

  lemma DecimalField(i: int, x: string, j: int, y: string)
    requires Decimal(i) + ":" + x == Decimal(j) + ":" + y
    ensures i == j && x == y
  {
    DecimalHasNoColon(i);
    DecimalHasNoColon(j);
    SplitAtSeparator(':', Decimal(i), x, Decimal(j), y);
    DecimalInjective(i, j);
  }

  /** The request id may contain colons: the fingerprint has a fixed length, so the text still determines it. */
  lemma BatchTextInjective(
    o: int, c: int, r: int, q: string, f: string, o': int, c': int, r': int, q': string, f': string)
    requires |f| == |f'|
    requires BatchText(o, c, r, q, f) == BatchText(o', c', r', q', f')
    ensures o == o' && c == c' && r == r' && q == q' && f == f'
  {
    var t3, u3 := q + ":" + f, q' + ":" + f';
    var t2, u2 := Decimal(r) + ":" + t3, Decimal(r') + ":" + u3;
    var t1, u1 := Decimal(c) + ":" + t2, Decimal(c') + ":" + u2;
    SamePrefix("admin-agent-series-batch:", Decimal(o) + ":" + t1, Decimal(o') + ":" + u1);
    DecimalField(o, t1, o', u1);
    DecimalField(c, t2, c', u2);
    DecimalField(r, t3, r', u3);
    SplitBeforeTail(':', q, f, q', f');
  }

  /** Without the fixed length of the fingerprint two requests could share a text. */
  lemma VariableLengthWouldCollide()
    ensures exists q, f, q', f' :: q != q' && BatchText(1, 2, 3, q, f) == BatchText(1, 2, 3, q', f')
  {
    var q, f, q', f' := "a", "b:c", "a:b", "c";
    assert q + ":" + f == q' + ":" + f';
    assert BatchText(1, 2, 3, q, f) == BatchText(1, 2, 3, q', f');
  }

  lemma ItemTextInjective(k: string, n: int, f: string, k': string, n': int, f': string)
    requires |k| == |k'|
    requires ItemText(k, n, f) == ItemText(k', n', f')
    ensures k == k' && n == n' && f == f'
  {
    var t, u := Decimal(n) + ":" + f, Decimal(n') + ":" + f';
    SamePrefix("admin-agent-series-item:", k + ":" + t, k' + ":" + u);
    assert (k + ":" + t)[..|k|] == k && (k' + ":" + u)[..|k'|] == k';
    assert (k + ":" + t)[|k| + 1..] == t && (k' + ":" + u)[|k'| + 1..] == u;
    DecimalField(n, f, n', f');
  }

  lemma SingleTextInjective(a: int, f: string, a': int, f': string)
    requires SingleText(a, f) == SingleText(a', f')
    ensures a == a' && f == f'
  {
    SamePrefix("admin-agent-approval:", Decimal(a) + ":" + f, Decimal(a') + ":" + f');
    DecimalField(a, f, a', f');
  }

  /** The three kinds of text never coincide. */
  lemma KindsDiffer(a: int, f: string, k: string, n: int, g: string, o: int, c: int, r: int, q: string, h: string)
    ensures SingleText(a, f) != ItemText(k, n, g) && SingleText(a, f) != BatchText(o, c, r, q, h)
    ensures ItemText(k, n, g) != BatchText(o, c, r, q, h)
  {
    assert SingleText(a, f)[12] == 'a' && ItemText(k, n, g)[12] == 's' && BatchText(o, c, r, q, h)[12] == 's';
    assert ItemText(k, n, g)[19] == 'i' && BatchText(o, c, r, q, h)[19] == 'b';
  }

  /** Everything a series item stands for when it is scheduled. */
  datatype Intent = Intent(
    owner: int, channel: int, run: int, request: string,
    batchFingerprint: string, ordinal: int, itemFingerprint: string)

  function BatchKey(sha: string -> string, x: Intent): string {
    sha(BatchText(x.owner, x.channel, x.run, x.request, x.batchFingerprint))
  }

  function ItemKey(sha: string -> string, x: Intent): string {
    sha(ItemText(BatchKey(sha, x), x.ordinal, x.itemFingerprint))
  }

  predicate NoCollision(sha: string -> string, s: string, t: string) {
    sha(s) == sha(t) ==> s == t
  }

  /** Two items share an execution key only when their whole intents agree. */
  lemma ItemKeysIdentifyIntents(sha: string -> string, x: Intent, y: Intent)
    requires |x.batchFingerprint| == |y.batchFingerprint| && |BatchKey(sha, x)| == |BatchKey(sha, y)|
    requires NoCollision(sha, BatchText(x.owner, x.channel, x.run, x.request, x.batchFingerprint),
                         BatchText(y.owner, y.channel, y.run, y.request, y.batchFingerprint))
    requires NoCollision(sha, ItemText(BatchKey(sha, x), x.ordinal, x.itemFingerprint),
                         ItemText(BatchKey(sha, y), y.ordinal, y.itemFingerprint))
    ensures ItemKey(sha, x) == ItemKey(sha, y) <==> x == y
  {
    if ItemKey(sha, x) == ItemKey(sha, y) {
      ItemTextInjective(BatchKey(sha, x), x.ordinal, x.itemFingerprint, BatchKey(sha, y), y.ordinal, y.itemFingerprint);
      BatchTextInjective(x.owner, x.channel, x.run, x.request, x.batchFingerprint,
                         y.owner, y.channel, y.run, y.request, y.batchFingerprint);
    }
  }
}
