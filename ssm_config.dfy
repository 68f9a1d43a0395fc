/**
  What both versions of the bot do with the parameters they read from the
  parameter store before using them: find the first expected key that is
  missing.
 */
module SsmConfig {
  import opened Wrappers

  /** The first of `keys`, in order, that `cfg` lacks; None when it has
      them all. This is the key `load_config` names when it raises. */
  function MissingKey<V>(cfg: map<string, V>, keys: seq<string>): (r: Option<string>)
    ensures r.None? <==> forall i :: 0 <= i < |keys| ==> keys[i] in cfg
    ensures r.Some? ==> r.value !in cfg && exists i :: (0 <= i < |keys| && keys[i] == r.value
      && forall j :: 0 <= j < i ==> keys[j] in cfg)
  {
    if |keys| == 0 then None
    else if keys[0] !in cfg then Some(keys[0])
    else
      var r := MissingKey(cfg, keys[1..]);
      assert forall j :: 1 <= j < |keys| ==> keys[j] == keys[1..][j - 1];
      r
  }
}
