/** Invertible integer mixers of folly's Hash.h, on machine words. Each stage of a mixer is undone by a stage of its inverse:
    a sum of shifts is a product with an odd constant, which has an inverse modulo the word size. */
module Mixers {
  /** `a + b`, by name, so that sums can be taken apart */
  function Add64(a: bv64, b: bv64): bv64 { a + b }
  function Add32(a: bv32, b: bv32): bv32 { a + b }

  // ---- twang_mix64 and twang_unmix64 ----

  /** `(~key) + (key << 21)` */
  function Less21(key: bv64): bv64 { Add64(!key, key << 21) }

  /** `(key + 1) * 9223367638806167551` */
  function UnLess21(key: bv64): bv64 { (key + 1) * 9223367638806167551 }

  lemma Less21Terms(k: bv64)
    ensures !k == 0 - k - 1 && k << 21 == k * 2097152
  {
  }

  lemma Less21Sum(k: bv64)
    ensures Add64(0 - k - 1, k * 2097152) == k * 2097151 - 1
  {
  }

  lemma Less21Is(k: bv64)
    ensures Less21(k) == k * 2097151 - 1
  {
    hide Add64;
    Less21Terms(k);
    Less21Sum(k);
  }

  lemma Less21Back(k: bv64, y: bv64)
    requires y == k * 2097151 - 1
    ensures UnLess21(y) == k
  {
  }

  lemma Less21Undone(k: bv64)
    ensures UnLess21(Less21(k)) == k
  {
    hide Less21, UnLess21;
    Less21Is(k);
    Less21Back(k, Less21(k));
  }

  /** `key ^ (key >> 24)` */
  function Xor24(key: bv64): bv64 { key ^ (key >> 24) }

  /** `the inverse: the shifts by all multiples of 24` */
  function UnXor24(key: bv64): bv64 { key ^ ((key >> 24) ^ (key >> 48)) }

  lemma Xor24Back(k: bv64, y: bv64)
    requires y == k ^ (k >> 24)
    ensures UnXor24(y) == k
  {
  }

  lemma Xor24Undone(k: bv64)
    ensures UnXor24(Xor24(k)) == k
  {
    hide UnXor24;
    Xor24Back(k, Xor24(k));
  }

  /** `key + (key << 3) + (key << 8)` */
  function Plus8(key: bv64): bv64 { Add64(Add64(key, key << 3), key << 8) }

  /** `key * 15244667743933553977` */
  function UnPlus8(key: bv64): bv64 { key * 15244667743933553977 }

  lemma Plus8Sum(k: bv64)
    ensures Add64(k, k << 3) == k * 9
  {
  }

  lemma Plus8Shift(k: bv64)
    ensures k << 8 == k * 256
  {
  }

  lemma Plus8Terms(k: bv64, a: bv64)
    requires a == k * 256
    ensures Add64(k * 9, a) == k * 265
  {
  }

  lemma Plus8SumTwo(k: bv64)
    ensures Add64(k * 9, k << 8) == k * 265
  {
    hide Add64;
    Plus8Shift(k);
    Plus8Terms(k, k << 8);
  }

  lemma Plus8Is(k: bv64)
    ensures Plus8(k) == k * 265
  {
    hide Add64;
    Plus8Sum(k);
    Plus8SumTwo(k);
  }

  lemma Plus8Back(k: bv64, y: bv64)
    requires y == k * 265
    ensures UnPlus8(y) == k
  {
  }

  lemma Plus8Undone(k: bv64)
    ensures UnPlus8(Plus8(k)) == k
  {
    hide Plus8, UnPlus8;
    Plus8Is(k);
    Plus8Back(k, Plus8(k));
  }

  /** `key ^ (key >> 14)` */
  function Xor14(key: bv64): bv64 { key ^ (key >> 14) }

  /** `the inverse: the shifts by all multiples of 14` */
  function UnXor14(key: bv64): bv64 { key ^ ((key >> 14) ^ (key >> 28) ^ (key >> 42) ^ (key >> 56)) }

  lemma Xor14Back(k: bv64, y: bv64)
    requires y == k ^ (k >> 14)
    ensures UnXor14(y) == k
  {
  }

  lemma Xor14Undone(k: bv64)
    ensures UnXor14(Xor14(k)) == k
  {
    hide UnXor14;
    Xor14Back(k, Xor14(k));
  }

  /** `key + (key << 2) + (key << 4)` */
  function Plus4(key: bv64): bv64 { Add64(Add64(key, key << 2), key << 4) }

  /** `key * 14933078535860113213` */
  function UnPlus4(key: bv64): bv64 { key * 14933078535860113213 }

  lemma Plus4Sum(k: bv64)
    ensures Add64(k, k << 2) == k * 5
  {
  }

  lemma Plus4Shift(k: bv64)
    ensures k << 4 == k * 16
  {
  }

  lemma Plus4Terms(k: bv64, a: bv64)
    requires a == k * 16
    ensures Add64(k * 5, a) == k * 21
  {
  }

  lemma Plus4SumTwo(k: bv64)
    ensures Add64(k * 5, k << 4) == k * 21
  {
    hide Add64;
    Plus4Shift(k);
    Plus4Terms(k, k << 4);
  }

  lemma Plus4Is(k: bv64)
    ensures Plus4(k) == k * 21
  {
    hide Add64;
    Plus4Sum(k);
    Plus4SumTwo(k);
  }

  lemma Plus4Back(k: bv64, y: bv64)
    requires y == k * 21
    ensures UnPlus4(y) == k
  {
  }

  lemma Plus4Undone(k: bv64)
    ensures UnPlus4(Plus4(k)) == k
  {
    hide Plus4, UnPlus4;
    Plus4Is(k);
    Plus4Back(k, Plus4(k));
  }

  /** `key ^ (key >> 28)` */
  function Xor28(key: bv64): bv64 { key ^ (key >> 28) }

  /** `the inverse: the shifts by all multiples of 28` */
  function UnXor28(key: bv64): bv64 { key ^ ((key >> 28) ^ (key >> 56)) }

  lemma Xor28Back(k: bv64, y: bv64)
    requires y == k ^ (k >> 28)
    ensures UnXor28(y) == k
  {
  }

  lemma Xor28Undone(k: bv64)
    ensures UnXor28(Xor28(k)) == k
  {
    hide UnXor28;
    Xor28Back(k, Xor28(k));
  }

  /** `key + (key << 31)` */
  function Plus31(key: bv64): bv64 { Add64(key, key << 31) }

  /** `key * 4611686016279904257` */
  function UnPlus31(key: bv64): bv64 { key * 4611686016279904257 }

  lemma Plus31Sum(k: bv64)
    ensures Add64(k, k << 31) == k * 2147483649
  {
  }

  lemma Plus31Is(k: bv64)
    ensures Plus31(k) == k * 2147483649
  {
    hide Add64;
    Plus31Sum(k);
  }

  lemma Plus31Back(k: bv64, y: bv64)
    requires y == k * 2147483649
    ensures UnPlus31(y) == k
  {
  }

  lemma Plus31Undone(k: bv64)
    ensures UnPlus31(Plus31(k)) == k
  {
    hide Plus31, UnPlus31;
    Plus31Is(k);
    Plus31Back(k, Plus31(k));
  }

  ghost function TwangMix(key: bv64): bv64 {
    Plus31(Xor28(Plus4(Xor14(Plus8(Xor24(Less21(key)))))))
  }

  ghost function TwangUnmix(key: bv64): bv64 {
    UnLess21(UnXor24(UnPlus8(UnXor14(UnPlus4(UnXor28(UnPlus31(key)))))))
  }

  /** twang_unmix64 undoes twang_mix64 on every key, so both are bijections. */
  lemma TwangMixUndone(key: bv64)
    ensures TwangUnmix(TwangMix(key)) == key
  {
    hide Less21, Xor24, Plus8, Xor14, Plus4, Xor28, Plus31, UnLess21, UnXor24, UnPlus8, UnXor14, UnPlus4, UnXor28, UnPlus31;
    Less21Undone(key);
    Xor24Undone(Less21(key));
    Plus8Undone(Xor24(Less21(key)));
    Xor14Undone(Plus8(Xor24(Less21(key))));
    Plus4Undone(Xor14(Plus8(Xor24(Less21(key)))));
    Xor28Undone(Plus4(Xor14(Plus8(Xor24(Less21(key))))));
    Plus31Undone(Xor28(Plus4(Xor14(Plus8(Xor24(Less21(key)))))));
  }

  /** `twang_mix64` */
  method TwangMix64(key0: bv64) returns (key: bv64)
    ensures key == TwangMix(key0)
  {
    hide Less21, Xor24, Plus8, Xor14, Plus4, Xor28, Plus31;
    key := key0;
    key := Less21(key);
    key := Xor24(key);
    key := Plus8(key);
    key := Xor14(key);
    key := Plus4(key);
    key := Xor28(key);
    key := Plus31(key);
  }

  /** `twang_unmix64` */
  method TwangUnmix64(key0: bv64) returns (key: bv64)
    ensures key == TwangUnmix(key0)
  {
    hide UnPlus31, UnXor28, UnPlus4, UnXor14, UnPlus8, UnXor24, UnLess21;
    key := key0;
    key := UnPlus31(key);
    key := UnXor28(key);
    key := UnPlus4(key);
    key := UnXor14(key);
    key := UnPlus8(key);
    key := UnXor24(key);
    key := UnLess21(key);
  }

  // ---- jenkins_rev_mix32 and jenkins_rev_unmix32 ----

  /** `key + (key << 12)` */
  function Plus12(key: bv32): bv32 { Add32(key, key << 12) }

  /** `key * 16773121` */
  function UnPlus12(key: bv32): bv32 { key * 16773121 }

  lemma Plus12Sum(k: bv32)
    ensures Add32(k, k << 12) == k * 4097
  {
  }

  lemma Plus12Is(k: bv32)
    ensures Plus12(k) == k * 4097
  {
    hide Add32;
    Plus12Sum(k);
  }

  lemma Plus12Back(k: bv32, y: bv32)
    requires y == k * 4097
    ensures UnPlus12(y) == k
  {
  }

  lemma Plus12Undone(k: bv32)
    ensures UnPlus12(Plus12(k)) == k
  {
    hide Plus12, UnPlus12;
    Plus12Is(k);
    Plus12Back(k, Plus12(k));
  }

  /** `key ^ (key >> 22)` */
  function Xor22(key: bv32): bv32 { key ^ (key >> 22) }

  /** `the inverse: the shifts by all multiples of 22` */
  function UnXor22(key: bv32): bv32 { key ^ ((key >> 22)) }

  lemma Xor22Back(k: bv32, y: bv32)
    requires y == k ^ (k >> 22)
    ensures UnXor22(y) == k
  {
  }

  lemma Xor22Undone(k: bv32)
    ensures UnXor22(Xor22(k)) == k
  {
    hide UnXor22;
    Xor22Back(k, Xor22(k));
  }

  /** `key + (key << 4)` */
  function PlusFour(key: bv32): bv32 { Add32(key, key << 4) }

  /** `key * 4042322161` */
  function UnPlusFour(key: bv32): bv32 { key * 4042322161 }

  lemma PlusFourSum(k: bv32)
    ensures Add32(k, k << 4) == k * 17
  {
  }

  lemma PlusFourIs(k: bv32)
    ensures PlusFour(k) == k * 17
  {
    hide Add32;
    PlusFourSum(k);
  }

  lemma PlusFourBack(k: bv32, y: bv32)
    requires y == k * 17
    ensures UnPlusFour(y) == k
  {
  }

  lemma PlusFourUndone(k: bv32)
    ensures UnPlusFour(PlusFour(k)) == k
  {
    hide PlusFour, UnPlusFour;
    PlusFourIs(k);
    PlusFourBack(k, PlusFour(k));
  }

  /** `key ^ (key >> 9)` */
  function Xor9(key: bv32): bv32 { key ^ (key >> 9) }

  /** `the inverse: the shifts by all multiples of 9` */
  function UnXor9(key: bv32): bv32 { key ^ ((key >> 9) ^ (key >> 18) ^ (key >> 27)) }

  lemma Xor9Back(k: bv32, y: bv32)
    requires y == k ^ (k >> 9)
    ensures UnXor9(y) == k
  {
  }

  lemma Xor9Undone(k: bv32)
    ensures UnXor9(Xor9(k)) == k
  {
    hide UnXor9;
    Xor9Back(k, Xor9(k));
  }

  /** `key + (key << 10)` */
  function Plus10(key: bv32): bv32 { Add32(key, key << 10) }

  /** `key * 3222273025` */
  function UnPlus10(key: bv32): bv32 { key * 3222273025 }

  lemma Plus10Sum(k: bv32)
    ensures Add32(k, k << 10) == k * 1025
  {
  }

  lemma Plus10Is(k: bv32)
    ensures Plus10(k) == k * 1025
  {
    hide Add32;
    Plus10Sum(k);
  }

  lemma Plus10Back(k: bv32, y: bv32)
    requires y == k * 1025
    ensures UnPlus10(y) == k
  {
  }

  lemma Plus10Undone(k: bv32)
    ensures UnPlus10(Plus10(k)) == k
  {
    hide Plus10, UnPlus10;
    Plus10Is(k);
    Plus10Back(k, Plus10(k));
  }

  /** `key ^ (key >> 2)` */
  function Xor2(key: bv32): bv32 { key ^ (key >> 2) }

  /** `the inverse: the shifts by all multiples of 2` */
  function UnXor2(key: bv32): bv32 { key ^ ((key >> 2) ^ (key >> 4) ^ (key >> 6) ^ (key >> 8) ^ (key >> 10) ^ (key >> 12) ^ (key >> 14) ^ (key >> 16) ^ (key >> 18) ^ (key >> 20) ^ (key >> 22) ^ (key >> 24) ^ (key >> 26) ^ (key >> 28) ^ (key >> 30)) }

  lemma Xor2Back(k: bv32, y: bv32)
    requires y == k ^ (k >> 2)
    ensures UnXor2(y) == k
  {
  }

  lemma Xor2Undone(k: bv32)
    ensures UnXor2(Xor2(k)) == k
  {
    hide UnXor2;
    Xor2Back(k, Xor2(k));
  }

  /** `key + (key << 7)` */
  function Plus7(key: bv32): bv32 { Add32(key, key << 7) }

  /** `key * 266354561` */
  function UnPlus7(key: bv32): bv32 { key * 266354561 }

  lemma Plus7Sum(k: bv32)
    ensures Add32(k, k << 7) == k * 129
  {
  }

  lemma Plus7Is(k: bv32)
    ensures Plus7(k) == k * 129
  {
    hide Add32;
    Plus7Sum(k);
  }

  lemma Plus7Back(k: bv32, y: bv32)
    requires y == k * 129
    ensures UnPlus7(y) == k
  {
  }

  lemma Plus7Undone(k: bv32)
    ensures UnPlus7(Plus7(k)) == k
  {
    hide Plus7, UnPlus7;
    Plus7Is(k);
    Plus7Back(k, Plus7(k));
  }

  /** `key += (key << 7); key += (key << 12)` */
  function Twice(key: bv32): bv32 { Plus12(Plus7(key)) }

  /** `key * 2364026753`, the inverse of both factors at once */
  function UnTwice(key: bv32): bv32 { key * 2364026753 }

  lemma TwiceFactors(y: bv32, z: bv32)
    requires z == y * 16773121
    ensures UnPlus7(z) == y * 2364026753
  {
  }

  lemma TwiceSplit(y: bv32)
    ensures UnTwice(y) == UnPlus7(UnPlus12(y))
  {
    hide UnPlus7;
    TwiceFactors(y, UnPlus12(y));
  }

  lemma TwiceUndone(k: bv32)
    ensures UnTwice(Twice(k)) == k
  {
    hide Plus7, Plus12, UnPlus7, UnPlus12, UnTwice;
    TwiceSplit(Twice(k));
    Plus12Undone(Plus7(k));
    Plus7Undone(k);
  }

  ghost function JenkinsMix(key: bv32): bv32 {
    Twice(Xor2(Plus10(Xor9(PlusFour(Xor22(Plus12(key)))))))
  }

  ghost function JenkinsUnmix(key: bv32): bv32 {
    UnPlus12(UnXor22(UnPlusFour(UnXor9(UnPlus10(UnXor2(UnTwice(key)))))))
  }

  /** jenkins_rev_unmix32 undoes jenkins_rev_mix32 on every key, so both are bijections. */
  lemma JenkinsMixUndone(key: bv32)
    ensures JenkinsUnmix(JenkinsMix(key)) == key
  {
    hide Plus12, Xor22, PlusFour, Xor9, Plus10, Xor2, Twice, UnPlus12, UnXor22, UnPlusFour, UnXor9, UnPlus10, UnXor2, UnTwice;
    Plus12Undone(key);
    Xor22Undone(Plus12(key));
    PlusFourUndone(Xor22(Plus12(key)));
    Xor9Undone(PlusFour(Xor22(Plus12(key))));
    Plus10Undone(Xor9(PlusFour(Xor22(Plus12(key)))));
    Xor2Undone(Plus10(Xor9(PlusFour(Xor22(Plus12(key))))));
    TwiceUndone(Xor2(Plus10(Xor9(PlusFour(Xor22(Plus12(key)))))));
  }

  /** `jenkins_rev_mix32` */
  method JenkinsRevMix32(key0: bv32) returns (key: bv32)
    ensures key == JenkinsMix(key0)
  {
    hide Plus12, Xor22, PlusFour, Xor9, Plus10, Xor2, Twice;
    key := key0;
    key := Plus12(key);
    key := Xor22(key);
    key := PlusFour(key);
    key := Xor9(key);
    key := Plus10(key);
    key := Xor2(key);
    key := Twice(key);
  }

  /** `jenkins_rev_unmix32` */
  method JenkinsRevUnmix32(key0: bv32) returns (key: bv32)
    ensures key == JenkinsUnmix(key0)
  {
    hide UnTwice, UnXor2, UnPlus10, UnXor9, UnPlusFour, UnXor22, UnPlus12;
    key := key0;
    key := UnTwice(key);
    key := UnXor2(key);
    key := UnPlus10(key);
    key := UnXor9(key);
    key := UnPlusFour(key);
    key := UnXor22(key);
    key := UnPlus12(key);
  }
}
