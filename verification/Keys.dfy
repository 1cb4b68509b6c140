/** The string keys of the connection store and the queue maps, and the two
    filters session cleanup uses to find them. */
module Keys {

  predicate ColonFree(sid: string) {
    ':' !in sid
  }

  function Key(sid: string, conn: string): string {
    sid + ":" + conn
  }

  predicate HasPrefix(s: string, prefix: string) {
    prefix <= s
  }

  ghost predicate Contains(s: string, sub: string) {
    exists i :: 0 <= i <= |s| && sub <= s[i..]
  }

  predicate HasSuffix(s: string, suffix: string) {
    |suffix| <= |s| && s[|s| - |suffix|..] == suffix
  }

  // ---- the prefix filter on queue keys --------------------------------------

  /** Cleanup of `sid` selects a queue of `sid'` exactly when one id with its colon
      begins the other, and the connection id supplies what is missing. */
  lemma QueueFilterExactly(sid: string, sid': string, conn: string)
    ensures HasPrefix(Key(sid', conn), sid + ":") <==>
              || HasPrefix(sid' + ":", sid + ":")
              || (HasPrefix(sid + ":", sid' + ":") && HasPrefix(conn, (sid + ":")[|sid'| + 1..]))
  {
    var a, b := sid + ":", sid' + ":";
    assert Key(sid', conn) == b + conn;
    if |a| <= |b| {
      assert (b + conn)[..|a|] == b[..|a|];
    } else if HasPrefix(b + conn, a) {
      assert b + conn == a + (b + conn)[|a|..];
      assert b == (b + conn)[..|b|] == a[..|b|];
      assert conn == (b + conn)[|b|..] == a[|b|..] + (b + conn)[|a|..];
    }
  }

  /** So it takes a queue of another session, for some connection, exactly when one
      of the two ids with its colon begins the other. */
  lemma QueueFilterMixesExactly(sid: string, sid': string)
    ensures (exists conn :: HasPrefix(Key(sid', conn), sid + ":")) <==>
              HasPrefix(sid' + ":", sid + ":") || HasPrefix(sid + ":", sid' + ":")
  {
    forall conn ensures HasPrefix(Key(sid', conn), sid + ":") ==>
                          HasPrefix(sid' + ":", sid + ":") || HasPrefix(sid + ":", sid' + ":") {
      QueueFilterExactly(sid, sid', conn);
    }
    if HasPrefix(sid' + ":", sid + ":") {
      QueueFilterExactly(sid, sid', "");
    } else if HasPrefix(sid + ":", sid' + ":") {
      QueueFilterExactly(sid, sid', (sid + ":")[|sid'| + 1..]);
    }
  }

  /** A session whose cleanup takes a live queue of another one. */
  lemma QueueFilterNeedsColonFree()
    ensures "a" != "a:b" && HasPrefix(Key("a", "b:c"), "a:b" + ":")
  {
    QueueFilterExactly("a:b", "a", "b:c");
    assert "a:b" + ":" == "a:b:";
  }

  /** Ids without a colon begin each other that way only when they are equal. */
  lemma ColonFreeBegins(sid: string, sid': string)
    requires ColonFree(sid') && HasPrefix(sid' + ":", sid + ":")
    ensures sid == sid'
  {
    assert (sid' + ":")[|sid|] == (sid + ":")[|sid|];
    assert sid == (sid + ":")[..|sid|] == (sid' + ":")[..|sid|];
  }

  /** So among colon-free session ids the filter selects exactly the session's own
      queues, and keys identify connections. */
  lemma QueueFilterIsExact(sid: string, sid': string, conn': string)
    requires ColonFree(sid) && ColonFree(sid')
    ensures HasPrefix(Key(sid', conn'), sid + ":") <==> sid == sid'
    ensures forall conn :: Key(sid, conn) == Key(sid', conn') <==> sid == sid' && conn == conn'
  {
    QueueFilterExactly(sid, sid', conn');
    if HasPrefix(sid' + ":", sid + ":") {
      ColonFreeBegins(sid, sid');
    } else if HasPrefix(sid + ":", sid' + ":") {
      ColonFreeBegins(sid', sid);
    }
    forall conn | Key(sid, conn) == Key(sid', conn') ensures sid == sid' && conn == conn' {
      assert HasPrefix(Key(sid, conn), sid + ":");
      assert conn == Key(sid, conn)[|sid| + 1..];
    }
  }

  // ---- the substring filter on the connection store -------------------------

  /** The colon of `sid` at `i` can be the one between `sid'` and `conn`. */
  predicate AcrossAt(sid: string, sid': string, conn: string, i: nat) {
    i < |sid| && sid[i] == ':' && HasSuffix(sid', sid[..i]) && HasPrefix(conn, sid[i + 1..])
  }

  lemma OccurrencePlace(sid: string, sid': string, conn: string, j: nat)
    requires j <= |Key(sid', conn)| && sid <= Key(sid', conn)[j..]
    ensures Contains(sid', sid) || Contains(conn, sid) || exists i :: AcrossAt(sid, sid', conn, i)
  {
    var k, n := Key(sid', conn), |sid'|;
    assert sid == k[j..j + |sid|];
    if j + |sid| <= n {
      assert sid'[j..] == sid + sid'[j + |sid|..];
    } else if j > n {
      assert k[j..] == conn[j - n - 1..];
    } else {
      var i := n - j;
      assert sid[i] == k[n] == ':';
      assert sid[..i] == sid'[j..];
      assert sid[i + 1..] == conn[..|sid| - i - 1];
      assert AcrossAt(sid, sid', conn, i);
    }
  }

  lemma AcrossOccurs(sid: string, sid': string, conn: string, i: nat)
    requires AcrossAt(sid, sid', conn, i)
    ensures Contains(Key(sid', conn), sid)
  {
    var k, j := Key(sid', conn), |sid'| - i;
    assert k[j..] == sid[..i] + ":" + conn;
    assert sid == sid[..i] + ":" + sid[i + 1..];
    assert conn == sid[i + 1..] + conn[|sid| - i - 1..];
    assert k[j..] == sid + conn[|sid| - i - 1..];
  }

  lemma WithinOccurs(sid: string, sid': string, conn: string)
    requires Contains(sid', sid) || Contains(conn, sid)
    ensures Contains(Key(sid', conn), sid)
  {
    var k, n := Key(sid', conn), |sid'|;
    if i :| 0 <= i <= n && sid <= sid'[i..] {
      assert k[i..] == sid'[i..] + (":" + conn);
    } else {
      var i :| 0 <= i <= |conn| && sid <= conn[i..];
      assert k[n + 1 + i..] == conn[i..];
    }
  }

  /** Cleanup of `sid` selects a connection of `sid'` exactly when `sid` occurs in
      the session id, in the connection id, or across the colon between them. */
  lemma StoreFilterExactly(sid: string, sid': string, conn: string)
    ensures Contains(Key(sid', conn), sid) <==>
              Contains(sid', sid) || Contains(conn, sid) || exists i :: AcrossAt(sid, sid', conn, i)
  {
    if Contains(Key(sid', conn), sid) {
      var j :| 0 <= j <= |Key(sid', conn)| && sid <= Key(sid', conn)[j..];
      OccurrencePlace(sid, sid', conn, j);
    } else if Contains(sid', sid) || Contains(conn, sid) {
      WithinOccurs(sid, sid', conn);
    } else if i: nat :| AcrossAt(sid, sid', conn, i) {
      AcrossOccurs(sid, sid', conn, i);
    }
  }

  /** A colon-free id takes the connections whose session or connection id it
      occurs in, its own among them. */
  lemma StoreFilterOfColonFree(sid: string, sid': string, conn: string)
    requires ColonFree(sid)
    ensures Contains(Key(sid', conn), sid) <==> Contains(sid', sid) || Contains(conn, sid)
  {
    StoreFilterExactly(sid, sid', conn);
  }

  lemma StoreFilterCovers(sid: string, conn: string)
    ensures Contains(Key(sid, conn), sid)
  {
    assert Key(sid, conn)[0..] == Key(sid, conn);
  }
}
