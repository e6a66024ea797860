/** Size limits of the receiver, as normalised when the server starts. */
module Tiers {

  const MIB := 1024 * 1024

  datatype Limits = Limits(upload: int, stamp: int, verify: int)

  function Min(a: int, b: int): (m: int) {
    if a < b then a else b
  }

  /** 0 < stamp <= verify <= upload */
  predicate Ordered(l: Limits) {
    0 < l.stamp <= l.verify <= l.upload
  }

  /** The limits after start-up: an ordered triple exactly when the configured upload limit is not
      negative; a configured limit that already fits is kept; normalising again changes nothing. */
  method Normalise(cfg: Limits) returns (l: Limits)
    ensures Ordered(l) <==> cfg.upload >= 0
    ensures cfg.upload != 0 ==> l.upload == cfg.upload
    ensures cfg.upload == 0 ==> l.upload == 25 * MIB
    ensures 0 < cfg.stamp <= l.upload ==> l.stamp == cfg.stamp
    ensures !(0 < cfg.stamp <= l.upload) ==> l.stamp == Min(l.upload, 150 * MIB)
    ensures 0 < cfg.verify <= l.upload && l.stamp <= cfg.verify ==> l.verify == cfg.verify
    ensures !(0 < cfg.verify <= l.upload) ==> l.verify == if Min(l.upload, 350 * MIB) < l.stamp then l.stamp else Min(l.upload, 350 * MIB)
    ensures Ordered(cfg) ==> l == cfg
  {
    l := cfg;
    if l.upload == 0 { l := l.(upload := 25 * MIB); }
    if l.stamp <= 0 || l.stamp > l.upload { l := l.(stamp := Min(l.upload, 150 * MIB)); }
    if l.verify <= 0 || l.verify > l.upload { l := l.(verify := Min(l.upload, 350 * MIB)); }
    if l.verify < l.stamp { l := l.(verify := l.stamp); }
  }
}
