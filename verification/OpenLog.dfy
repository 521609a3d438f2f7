/** What is open, read off the history of what was opened and closed. */
module OpenLog {

  datatype Entry<K, V> = Opened(key: K, value: V) | Closed(key: K) | AllClosed

  /** Opened with this value, and neither opened again nor closed since. */
  ghost predicate IsOpen<K(!new), V(!new)>(log: seq<Entry<K, V>>, key: K, value: V) {
    exists i :: 0 <= i < |log| && log[i] == Opened(key, value)
                && forall j :: i < j < |log| ==> !log[j].AllClosed? && log[j].key != key
  }

  /** One entry more. */
  lemma SaidOne<K(!new), V(!new)>(log: seq<Entry<K, V>>, x: Entry<K, V>, key: K, value: V)
    ensures IsOpen(log + [x], key, value) <==>
            match x
            case Opened(k, v) => if key == k then value == v else IsOpen(log, key, value)
            case Closed(k) => key != k && IsOpen(log, key, value)
            case AllClosed => false
  {
    var longer := log + [x];
    if IsOpen(log, key, value) && !x.AllClosed? && x.key != key {
      var i :| 0 <= i < |log| && log[i] == Opened(key, value)
               && forall j :: i < j < |log| ==> !log[j].AllClosed? && log[j].key != key;
      assert longer[i] == Opened(key, value);
    }
    if x == Opened(key, value) { assert longer[|log|] == x; }
    if IsOpen(longer, key, value) {
      var i :| 0 <= i < |longer| && longer[i] == Opened(key, value)
               && forall j :: i < j < |longer| ==> !longer[j].AllClosed? && longer[j].key != key;
      if i < |log| {
        assert log[i] == Opened(key, value) && longer[|log|] == x;
        forall j | i < j < |log| ensures !log[j].AllClosed? && log[j].key != key { assert longer[j] == log[j]; }
      }
    }
  }

  /** At most one entry more. */
  lemma SaidAtMostOne<K(!new), V(!new)>(log: seq<Entry<K, V>>, said: seq<Entry<K, V>>, key: K, value: V)
    requires |said| <= 1
    ensures IsOpen(log + said, key, value) <==>
            if said == [] then IsOpen(log, key, value)
            else match said[0]
                 case Opened(k, v) => if key == k then value == v else IsOpen(log, key, value)
                 case Closed(k) => key != k && IsOpen(log, key, value)
                 case AllClosed => false
  {
    if said == [] { assert log + said == log; } else { assert said == [said[0]]; SaidOne(log, said[0], key, value); }
  }
}
