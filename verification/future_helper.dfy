/** The product-name helpers: a fixed table from product code to Chinese
    product name, its reverse, and the extraction of a product code from a
    contract symbol. */
module FutureHelper {
  import opened Wrappers
  import opened Strings
  import opened Seqs

  /* ------------------------------------------------------- dict literals */

  type Pairs = seq<(string, string)>

  /** The keys of a list of pairs, in order. */
  function Keys(ps: Pairs): (ks: seq<string>)
    ensures |ks| == |ps| && forall i :: 0 <= i < |ps| ==> ks[i] == ps[i].0
  {
    seq(|ps|, i requires 0 <= i < |ps| => ps[i].0)
  }

  /** The values of a list of pairs, in order. */
  function Vals(ps: Pairs): (vs: seq<string>)
    ensures |vs| == |ps| && forall i :: 0 <= i < |ps| ==> vs[i] == ps[i].1
  {
    seq(|ps|, i requires 0 <= i < |ps| => ps[i].1)
  }

  /** Each pair turned round: `(v, k) for k, v in items`. */
  function Swapped(ps: Pairs): (qs: Pairs)
    ensures |qs| == |ps| && forall i :: 0 <= i < |ps| ==> qs[i] == (ps[i].1, ps[i].0)
  {
    seq(|ps|, i requires 0 <= i < |ps| => (ps[i].1, ps[i].0))
  }

  /** A dict built from pairs in order (a dict display or a dict
      comprehension): a later pair overwrites an earlier one with the same
      key. */
  function MapOf(ps: Pairs): (m: map<string, string>)
    ensures forall k :: k in m <==> k in Keys(ps)
    ensures forall k | k in m :: (k, m[k]) in ps
  {
    if |ps| == 0 then map[]
    else
      var m := MapOf(ps[..|ps| - 1]);
      assert forall k :: k in Keys(ps) <==> k in Keys(ps[..|ps| - 1]) || k == ps[|ps| - 1].0 by {
        assert Keys(ps) == Keys(ps[..|ps| - 1]) + [ps[|ps| - 1].0];
      }
      m[ps[|ps| - 1].0 := ps[|ps| - 1].1]
  }

  /** With distinct keys no pair is overwritten: each key maps to its own
      value. */
  lemma {:induction false} MapOfDistinct(ps: Pairs, i: int)
    requires NoDup(Keys(ps))
    requires 0 <= i < |ps|
    ensures ps[i].0 in MapOf(ps) && MapOf(ps)[ps[i].0] == ps[i].1
  {
    var n := |ps| - 1;
    if i < n {
      var init := ps[..n];
      assert Keys(init) == Keys(ps)[..n];
      assert NoDup(Keys(init)) by {
        forall a, b | 0 <= a < b < |Keys(init)| ensures Keys(init)[a] != Keys(init)[b] {
          assert Keys(ps)[a] != Keys(ps)[b];
        }
      }
      MapOfDistinct(init, i);
      assert init[i] == ps[i];
      assert ps[i].0 != ps[n].0 by {
        assert Keys(ps)[i] != Keys(ps)[n];
      }
    }
  }

  /** Turning pairs round turns keys into values. */
  lemma SwappedKeys(ps: Pairs)
    ensures Keys(Swapped(ps)) == Vals(ps)
  {
  }

  lemma KeysAppend(a: Pairs, b: Pairs)
    ensures Keys(a + b) == Keys(a) + Keys(b)
  {
  }

  lemma ValsAppend(a: Pairs, b: Pairs)
    ensures Vals(a + b) == Vals(a) + Vals(b)
  {
  }

  /* --------------------------------------------------------------- table */

  /** `FUTURES_NAME_MAPPING`, entries 0 to 10, in source order. */
  function NamePairs0(): Pairs
  {
    [
      ("A", "黄大豆1号"),
      ("AD", "铝合金"),
      ("AG", "白银"),
      ("AL", "铝"),
      ("AO", "氧化铝"),
      ("AP", "苹果"),
      ("AU", "黄金"),
      ("B", "黄大豆2号"),
      ("BB", "胶板"),
      ("BC", "国际铜"),
      ("BR", "顺丁橡胶")
    ]
  }

  /** `FUTURES_NAME_MAPPING`, entries 11 to 21, in source order. */
  function NamePairs1(): Pairs
  {
    [
      ("BU", "沥青"),
      ("BZ", "纯苯"),
      ("C", "玉米"),
      ("CF", "棉花"),
      ("CJ", "红枣"),
      ("CS", "淀粉"),
      ("CU", "铜"),
      ("CY", "棉纱"),
      ("EB", "苯乙烯"),
      ("EC", "欧线集运"),
      ("EG", "乙二醇")
    ]
  }

  /** `FUTURES_NAME_MAPPING`, entries 22 to 32, in source order. */
  function NamePairs2(): Pairs
  {
    [
      ("FB", "纤板"),
      ("FG", "玻璃"),
      ("FU", "燃料油"),
      ("HC", "热轧卷板"),
      ("I", "铁矿石"),
      ("IC", "中证500股指"),
      ("IF", "沪深300股指"),
      ("IH", "上证50股指"),
      ("IM", "中证1000股指"),
      ("J", "焦炭"),
      ("JD", "鸡蛋")
    ]
  }

  /** `FUTURES_NAME_MAPPING`, entries 33 to 43, in source order. */
  function NamePairs3(): Pairs
  {
    [
      ("JM", "焦煤"),
      ("JR", "粳稻"),
      ("L", "聚乙烯LLDPE"),
      ("LC", "碳酸锂"),
      ("LG", "原木"),
      ("LH", "生猪"),
      ("LR", "晚稻"),
      ("LU", "低硫燃料油"),
      ("M", "豆粕"),
      ("MA", "甲醇"),
      ("NI", "镍")
    ]
  }

  /** `FUTURES_NAME_MAPPING`, entries 44 to 54, in source order. */
  function NamePairs4(): Pairs
  {
    [
      ("NR", "20号胶"),
      ("OI", "菜籽油"),
      ("P", "棕榈油"),
      ("PB", "铅"),
      ("PF", "短纤"),
      ("PG", "液化石油气"),
      ("PK", "花生仁"),
      ("PL", "丙烯"),
      ("PM", "普麦"),
      ("PP", "聚丙烯"),
      ("PR", "瓶片")
    ]
  }

  /** `FUTURES_NAME_MAPPING`, entries 55 to 65, in source order. */
  function NamePairs5(): Pairs
  {
    [
      ("PS", "多晶硅"),
      ("PX", "对二甲苯"),
      ("RB", "螺纹钢"),
      ("RI", "早稻"),
      ("RM", "菜籽粕"),
      ("RR", "粳米"),
      ("RS", "菜籽"),
      ("RU", "橡胶"),
      ("SA", "纯碱"),
      ("SC", "原油"),
      ("SF", "硅铁")
    ]
  }

  /** `FUTURES_NAME_MAPPING`, entries 66 to 76, in source order. */
  function NamePairs6(): Pairs
  {
    [
      ("SH", "烧碱"),
      ("SI", "工业硅"),
      ("SM", "锰硅"),
      ("SN", "锡"),
      ("SP", "针叶木浆"),
      ("SR", "白糖"),
      ("SS", "不锈钢"),
      ("T", "10年期国债"),
      ("TA", "精对苯二甲酸PTA"),
      ("TF", "5年期国债"),
      ("TL", "30年期国债")
    ]
  }

  /** `FUTURES_NAME_MAPPING`, entries 77 to 84, in source order. */
  function NamePairs7(): Pairs
  {
    [
      ("TS", "2年期国债"),
      ("UR", "尿素"),
      ("V", "聚氯乙稀PVC"),
      ("WH", "强麦"),
      ("WR", "线材"),
      ("Y", "豆油"),
      ("ZC", "动力煤"),
      ("ZN", "锌")
    ]
  }

  /** The product-code-to-name table, as the pairs of its dict display. */
  function NamePairs(): Pairs
  {
    NamePairs0() + NamePairs1() + NamePairs2() + NamePairs3() + NamePairs4() + NamePairs5() + NamePairs6() + NamePairs7()
  }

  /** `FUTURES_NAME_MAPPING`. */
  function NameMapping(): map<string, string>
  {
    MapOf(NamePairs())
  }

  /** `FUTURES_CODE_MAPPING = {v: k for k, v in FUTURES_NAME_MAPPING.items()}`. */
  function CodeMapping(): map<string, string>
  {
    MapOf(Swapped(NamePairs()))
  }

  lemma KeysAscending0()
    ensures Ascending(Keys(NamePairs0()))
  {
    var s := Keys(NamePairs0());
    assert LexLess(s[0], s[1]);
    assert LexLess(s[1], s[2]);
    assert LexLess(s[2], s[3]);
    assert LexLess(s[3], s[4]);
    assert LexLess(s[4], s[5]);
    assert LexLess(s[5], s[6]);
    assert LexLess(s[6], s[7]);
    assert LexLess(s[7], s[8]);
    assert LexLess(s[8], s[9]);
    assert LexLess(s[9], s[10]);
    forall i | 0 <= i < |s| - 1 ensures LexLess(s[i], s[i + 1]) {
      assert i == 0 || i == 1 || i == 2 || i == 3 || i == 4 || i == 5 || i == 6 || i == 7 || i == 8 || i == 9;
    }
  }

  lemma KeysAscending1()
    ensures Ascending(Keys(NamePairs1()))
  {
    var s := Keys(NamePairs1());
    assert LexLess(s[0], s[1]);
    assert LexLess(s[1], s[2]);
    assert LexLess(s[2], s[3]);
    assert LexLess(s[3], s[4]);
    assert LexLess(s[4], s[5]);
    assert LexLess(s[5], s[6]);
    assert LexLess(s[6], s[7]);
    assert LexLess(s[7], s[8]);
    assert LexLess(s[8], s[9]);
    assert LexLess(s[9], s[10]);
    forall i | 0 <= i < |s| - 1 ensures LexLess(s[i], s[i + 1]) {
      assert i == 0 || i == 1 || i == 2 || i == 3 || i == 4 || i == 5 || i == 6 || i == 7 || i == 8 || i == 9;
    }
  }

  lemma KeysAscending2()
    ensures Ascending(Keys(NamePairs2()))
  {
    var s := Keys(NamePairs2());
    assert LexLess(s[0], s[1]);
    assert LexLess(s[1], s[2]);
    assert LexLess(s[2], s[3]);
    assert LexLess(s[3], s[4]);
    assert LexLess(s[4], s[5]);
    assert LexLess(s[5], s[6]);
    assert LexLess(s[6], s[7]);
    assert LexLess(s[7], s[8]);
    assert LexLess(s[8], s[9]);
    assert LexLess(s[9], s[10]);
    forall i | 0 <= i < |s| - 1 ensures LexLess(s[i], s[i + 1]) {
      assert i == 0 || i == 1 || i == 2 || i == 3 || i == 4 || i == 5 || i == 6 || i == 7 || i == 8 || i == 9;
    }
  }

  lemma KeysAscending3()
    ensures Ascending(Keys(NamePairs3()))
  {
    var s := Keys(NamePairs3());
    assert LexLess(s[0], s[1]);
    assert LexLess(s[1], s[2]);
    assert LexLess(s[2], s[3]);
    assert LexLess(s[3], s[4]);
    assert LexLess(s[4], s[5]);
    assert LexLess(s[5], s[6]);
    assert LexLess(s[6], s[7]);
    assert LexLess(s[7], s[8]);
    assert LexLess(s[8], s[9]);
    assert LexLess(s[9], s[10]);
    forall i | 0 <= i < |s| - 1 ensures LexLess(s[i], s[i + 1]) {
      assert i == 0 || i == 1 || i == 2 || i == 3 || i == 4 || i == 5 || i == 6 || i == 7 || i == 8 || i == 9;
    }
  }

  lemma KeysAscending4()
    ensures Ascending(Keys(NamePairs4()))
  {
    var s := Keys(NamePairs4());
    assert LexLess(s[0], s[1]);
    assert LexLess(s[1], s[2]);
    assert LexLess(s[2], s[3]);
    assert LexLess(s[3], s[4]);
    assert LexLess(s[4], s[5]);
    assert LexLess(s[5], s[6]);
    assert LexLess(s[6], s[7]);
    assert LexLess(s[7], s[8]);
    assert LexLess(s[8], s[9]);
    assert LexLess(s[9], s[10]);
    forall i | 0 <= i < |s| - 1 ensures LexLess(s[i], s[i + 1]) {
      assert i == 0 || i == 1 || i == 2 || i == 3 || i == 4 || i == 5 || i == 6 || i == 7 || i == 8 || i == 9;
    }
  }

  lemma KeysAscending5()
    ensures Ascending(Keys(NamePairs5()))
  {
    var s := Keys(NamePairs5());
    assert LexLess(s[0], s[1]);
    assert LexLess(s[1], s[2]);
    assert LexLess(s[2], s[3]);
    assert LexLess(s[3], s[4]);
    assert LexLess(s[4], s[5]);
    assert LexLess(s[5], s[6]);
    assert LexLess(s[6], s[7]);
    assert LexLess(s[7], s[8]);
    assert LexLess(s[8], s[9]);
    assert LexLess(s[9], s[10]);
    forall i | 0 <= i < |s| - 1 ensures LexLess(s[i], s[i + 1]) {
      assert i == 0 || i == 1 || i == 2 || i == 3 || i == 4 || i == 5 || i == 6 || i == 7 || i == 8 || i == 9;
    }
  }

  lemma KeysAscending6()
    ensures Ascending(Keys(NamePairs6()))
  {
    var s := Keys(NamePairs6());
    assert LexLess(s[0], s[1]);
    assert LexLess(s[1], s[2]);
    assert LexLess(s[2], s[3]);
    assert LexLess(s[3], s[4]);
    assert LexLess(s[4], s[5]);
    assert LexLess(s[5], s[6]);
    assert LexLess(s[6], s[7]);
    assert LexLess(s[7], s[8]);
    assert LexLess(s[8], s[9]);
    assert LexLess(s[9], s[10]);
    forall i | 0 <= i < |s| - 1 ensures LexLess(s[i], s[i + 1]) {
      assert i == 0 || i == 1 || i == 2 || i == 3 || i == 4 || i == 5 || i == 6 || i == 7 || i == 8 || i == 9;
    }
  }

  lemma KeysAscending7()
    ensures Ascending(Keys(NamePairs7()))
  {
    var s := Keys(NamePairs7());
    assert LexLess(s[0], s[1]);
    assert LexLess(s[1], s[2]);
    assert LexLess(s[2], s[3]);
    assert LexLess(s[3], s[4]);
    assert LexLess(s[4], s[5]);
    assert LexLess(s[5], s[6]);
    assert LexLess(s[6], s[7]);
    forall i | 0 <= i < |s| - 1 ensures LexLess(s[i], s[i + 1]) {
      assert i == 0 || i == 1 || i == 2 || i == 3 || i == 4 || i == 5 || i == 6;
    }
  }

  /** The table lists its codes in ascending order, so no code repeats. */
  lemma TableKeysDistinct()
    ensures NoDup(Keys(NamePairs()))
  {
    KeysAscending0();
    KeysAscending1();
    KeysAscending2();
    KeysAscending3();
    KeysAscending4();
    KeysAscending5();
    KeysAscending6();
    KeysAscending7();
    KeysAppend(NamePairs0(), NamePairs1());
    assert LexLess("BR", "BU");
    AscendingAppend(Keys(NamePairs0()), Keys(NamePairs1()));
    KeysAppend(NamePairs0() + NamePairs1(), NamePairs2());
    assert LexLess("EG", "FB");
    AscendingAppend(Keys(NamePairs0()) + Keys(NamePairs1()), Keys(NamePairs2()));
    KeysAppend(NamePairs0() + NamePairs1() + NamePairs2(), NamePairs3());
    assert LexLess("JD", "JM");
    AscendingAppend(Keys(NamePairs0()) + Keys(NamePairs1()) + Keys(NamePairs2()), Keys(NamePairs3()));
    KeysAppend(NamePairs0() + NamePairs1() + NamePairs2() + NamePairs3(), NamePairs4());
    assert LexLess("NI", "NR");
    AscendingAppend(Keys(NamePairs0()) + Keys(NamePairs1()) + Keys(NamePairs2()) + Keys(NamePairs3()), Keys(NamePairs4()));
    KeysAppend(NamePairs0() + NamePairs1() + NamePairs2() + NamePairs3() + NamePairs4(), NamePairs5());
    assert LexLess("PR", "PS");
    AscendingAppend(Keys(NamePairs0()) + Keys(NamePairs1()) + Keys(NamePairs2()) + Keys(NamePairs3()) + Keys(NamePairs4()), Keys(NamePairs5()));
    KeysAppend(NamePairs0() + NamePairs1() + NamePairs2() + NamePairs3() + NamePairs4() + NamePairs5(), NamePairs6());
    assert LexLess("SF", "SH");
    AscendingAppend(Keys(NamePairs0()) + Keys(NamePairs1()) + Keys(NamePairs2()) + Keys(NamePairs3()) + Keys(NamePairs4()) + Keys(NamePairs5()), Keys(NamePairs6()));
    KeysAppend(NamePairs0() + NamePairs1() + NamePairs2() + NamePairs3() + NamePairs4() + NamePairs5() + NamePairs6(), NamePairs7());
    assert LexLess("TL", "TS");
    AscendingAppend(Keys(NamePairs0()) + Keys(NamePairs1()) + Keys(NamePairs2()) + Keys(NamePairs3()) + Keys(NamePairs4()) + Keys(NamePairs5()) + Keys(NamePairs6()), Keys(NamePairs7()));
    AscendingNoDup(Keys(NamePairs()));
  }

  lemma KeysShape0()
    ensures forall i | 0 <= i < |NamePairs0()| :: 1 <= |NamePairs0()[i].0| <= 2 && AllUpper(NamePairs0()[i].0)
  {
  }

  lemma KeysShape1()
    ensures forall i | 0 <= i < |NamePairs1()| :: 1 <= |NamePairs1()[i].0| <= 2 && AllUpper(NamePairs1()[i].0)
  {
  }

  lemma KeysShape2()
    ensures forall i | 0 <= i < |NamePairs2()| :: 1 <= |NamePairs2()[i].0| <= 2 && AllUpper(NamePairs2()[i].0)
  {
  }

  lemma KeysShape3()
    ensures forall i | 0 <= i < |NamePairs3()| :: 1 <= |NamePairs3()[i].0| <= 2 && AllUpper(NamePairs3()[i].0)
  {
  }

  lemma KeysShape4()
    ensures forall i | 0 <= i < |NamePairs4()| :: 1 <= |NamePairs4()[i].0| <= 2 && AllUpper(NamePairs4()[i].0)
  {
  }

  lemma KeysShape5()
    ensures forall i | 0 <= i < |NamePairs5()| :: 1 <= |NamePairs5()[i].0| <= 2 && AllUpper(NamePairs5()[i].0)
  {
  }

  lemma KeysShape6()
    ensures forall i | 0 <= i < |NamePairs6()| :: 1 <= |NamePairs6()[i].0| <= 2 && AllUpper(NamePairs6()[i].0)
  {
  }

  lemma KeysShape7()
    ensures forall i | 0 <= i < |NamePairs7()| :: 1 <= |NamePairs7()[i].0| <= 2 && AllUpper(NamePairs7()[i].0)
  {
  }

  /** Every code of the table is one or two upper-case letters. */
  lemma TableKeysShape()
    ensures forall k | k in Keys(NamePairs()) :: 1 <= |k| <= 2 && AllUpper(k)
  {
    KeysShape0();
    KeysShape1();
    KeysShape2();
    KeysShape3();
    KeysShape4();
    KeysShape5();
    KeysShape6();
    KeysShape7();
    KeysAppend(NamePairs0(), NamePairs1());
    KeysAppend(NamePairs0() + NamePairs1(), NamePairs2());
    KeysAppend(NamePairs0() + NamePairs1() + NamePairs2(), NamePairs3());
    KeysAppend(NamePairs0() + NamePairs1() + NamePairs2() + NamePairs3(), NamePairs4());
    KeysAppend(NamePairs0() + NamePairs1() + NamePairs2() + NamePairs3() + NamePairs4(), NamePairs5());
    KeysAppend(NamePairs0() + NamePairs1() + NamePairs2() + NamePairs3() + NamePairs4() + NamePairs5(), NamePairs6());
    KeysAppend(NamePairs0() + NamePairs1() + NamePairs2() + NamePairs3() + NamePairs4() + NamePairs5() + NamePairs6(), NamePairs7());
    forall k | k in Keys(NamePairs()) ensures 1 <= |k| <= 2 && AllUpper(k) {
      assert k in Keys(NamePairs0()) || k in Keys(NamePairs1()) || k in Keys(NamePairs2()) || k in Keys(NamePairs3()) || k in Keys(NamePairs4()) || k in Keys(NamePairs5()) || k in Keys(NamePairs6()) || k in Keys(NamePairs7());
    }
  }

  lemma NamesNotFallback0()
    ensures forall i | 0 <= i < |NamePairs0()| :: |NamePairs0()[i].1| > 0 && NamePairs0()[i].1[0] != '期'
  {
  }

  lemma NamesNotFallback1()
    ensures forall i | 0 <= i < |NamePairs1()| :: |NamePairs1()[i].1| > 0 && NamePairs1()[i].1[0] != '期'
  {
  }

  lemma NamesNotFallback2()
    ensures forall i | 0 <= i < |NamePairs2()| :: |NamePairs2()[i].1| > 0 && NamePairs2()[i].1[0] != '期'
  {
  }

  lemma NamesNotFallback3()
    ensures forall i | 0 <= i < |NamePairs3()| :: |NamePairs3()[i].1| > 0 && NamePairs3()[i].1[0] != '期'
  {
  }

  lemma NamesNotFallback4()
    ensures forall i | 0 <= i < |NamePairs4()| :: |NamePairs4()[i].1| > 0 && NamePairs4()[i].1[0] != '期'
  {
  }

  lemma NamesNotFallback5()
    ensures forall i | 0 <= i < |NamePairs5()| :: |NamePairs5()[i].1| > 0 && NamePairs5()[i].1[0] != '期'
  {
  }

  lemma NamesNotFallback6()
    ensures forall i | 0 <= i < |NamePairs6()| :: |NamePairs6()[i].1| > 0 && NamePairs6()[i].1[0] != '期'
  {
  }

  lemma NamesNotFallback7()
    ensures forall i | 0 <= i < |NamePairs7()| :: |NamePairs7()[i].1| > 0 && NamePairs7()[i].1[0] != '期'
  {
  }

  /** No table name starts with "期", the first character of every made-up
      name. */
  lemma TableNamesNotFallback()
    ensures forall v | v in Vals(NamePairs()) :: |v| > 0 && v[0] != '期'
  {
    NamesNotFallback0();
    NamesNotFallback1();
    NamesNotFallback2();
    NamesNotFallback3();
    NamesNotFallback4();
    NamesNotFallback5();
    NamesNotFallback6();
    NamesNotFallback7();
    ValsAppend(NamePairs0(), NamePairs1());
    ValsAppend(NamePairs0() + NamePairs1(), NamePairs2());
    ValsAppend(NamePairs0() + NamePairs1() + NamePairs2(), NamePairs3());
    ValsAppend(NamePairs0() + NamePairs1() + NamePairs2() + NamePairs3(), NamePairs4());
    ValsAppend(NamePairs0() + NamePairs1() + NamePairs2() + NamePairs3() + NamePairs4(), NamePairs5());
    ValsAppend(NamePairs0() + NamePairs1() + NamePairs2() + NamePairs3() + NamePairs4() + NamePairs5(), NamePairs6());
    ValsAppend(NamePairs0() + NamePairs1() + NamePairs2() + NamePairs3() + NamePairs4() + NamePairs5() + NamePairs6(), NamePairs7());
    forall v | v in Vals(NamePairs()) ensures |v| > 0 && v[0] != '期' {
      assert v in Vals(NamePairs0()) || v in Vals(NamePairs1()) || v in Vals(NamePairs2()) || v in Vals(NamePairs3()) || v in Vals(NamePairs4()) || v in Vals(NamePairs5()) || v in Vals(NamePairs6()) || v in Vals(NamePairs7());
    }
  }

  /* -------------------------------------------- names are distinct */
  function NameSorted0(): seq<string>
  {
    ["10年期国债", "20号胶", "2年期国债", "30年期国债", "5年期国债", "上证50股指", "不锈钢", "丙烯"]
  }
  lemma NameSorted0Ascending()
    ensures Ascending(NameSorted0())
  {
    var s := NameSorted0();
    assert LexLess(s[0], s[1]);
    assert LexLess(s[1], s[2]);
    assert LexLess(s[2], s[3]);
    assert LexLess(s[3], s[4]);
    assert LexLess(s[4], s[5]);
    assert LexLess(s[5], s[6]);
    assert LexLess(s[6], s[7]);
    forall i | 0 <= i < |s| - 1 ensures LexLess(s[i], s[i + 1]) {
      assert i == 0 || i == 1 || i == 2 || i == 3 || i == 4 || i == 5 || i == 6;
    }
  }

  function NameSorted1(): seq<string>
  {
    ["中证1000股指", "中证500股指", "乙二醇", "低硫燃料油", "动力煤", "原木", "原油", "国际铜"]
  }
  lemma NameSorted1Ascending()
    ensures Ascending(NameSorted1())
  {
    var s := NameSorted1();
    assert LexLess(s[0], s[1]);
    assert LexLess(s[1], s[2]);
    assert LexLess(s[2], s[3]);
    assert LexLess(s[3], s[4]);
    assert LexLess(s[4], s[5]);
    assert LexLess(s[5], s[6]);
    assert LexLess(s[6], s[7]);
    forall i | 0 <= i < |s| - 1 ensures LexLess(s[i], s[i + 1]) {
      assert i == 0 || i == 1 || i == 2 || i == 3 || i == 4 || i == 5 || i == 6;
    }
  }

  function NameSorted2(): seq<string>
  {
    ["多晶硅", "对二甲苯", "尿素", "工业硅", "强麦", "早稻", "晚稻", "普麦"]
  }
  lemma NameSorted2Ascending()
    ensures Ascending(NameSorted2())
  {
    var s := NameSorted2();
    assert LexLess(s[0], s[1]);
    assert LexLess(s[1], s[2]);
    assert LexLess(s[2], s[3]);
    assert LexLess(s[3], s[4]);
    assert LexLess(s[4], s[5]);
    assert LexLess(s[5], s[6]);
    assert LexLess(s[6], s[7]);
    forall i | 0 <= i < |s| - 1 ensures LexLess(s[i], s[i + 1]) {
      assert i == 0 || i == 1 || i == 2 || i == 3 || i == 4 || i == 5 || i == 6;
    }
  }

  function NameSorted3(): seq<string>
  {
    ["棉纱", "棉花", "棕榈油", "橡胶", "欧线集运", "氧化铝", "沥青", "沪深300股指"]
  }
  lemma NameSorted3Ascending()
    ensures Ascending(NameSorted3())
  {
    var s := NameSorted3();
    assert LexLess(s[0], s[1]);
    assert LexLess(s[1], s[2]);
    assert LexLess(s[2], s[3]);
    assert LexLess(s[3], s[4]);
    assert LexLess(s[4], s[5]);
    assert LexLess(s[5], s[6]);
    assert LexLess(s[6], s[7]);
    forall i | 0 <= i < |s| - 1 ensures LexLess(s[i], s[i + 1]) {
      assert i == 0 || i == 1 || i == 2 || i == 3 || i == 4 || i == 5 || i == 6;
    }
  }

  function NameSorted4(): seq<string>
  {
    ["液化石油气", "淀粉", "烧碱", "热轧卷板", "焦炭", "焦煤", "燃料油", "玉米"]
  }
  lemma NameSorted4Ascending()
    ensures Ascending(NameSorted4())
  {
    var s := NameSorted4();
    assert LexLess(s[0], s[1]);
    assert LexLess(s[1], s[2]);
    assert LexLess(s[2], s[3]);
    assert LexLess(s[3], s[4]);
    assert LexLess(s[4], s[5]);
    assert LexLess(s[5], s[6]);
    assert LexLess(s[6], s[7]);
    forall i | 0 <= i < |s| - 1 ensures LexLess(s[i], s[i + 1]) {
      assert i == 0 || i == 1 || i == 2 || i == 3 || i == 4 || i == 5 || i == 6;
    }
  }

  function NameSorted5(): seq<string>
  {
    ["玻璃", "瓶片", "生猪", "甲醇", "白糖", "白银", "短纤", "硅铁"]
  }
  lemma NameSorted5Ascending()
    ensures Ascending(NameSorted5())
  {
    var s := NameSorted5();
    assert LexLess(s[0], s[1]);
    assert LexLess(s[1], s[2]);
    assert LexLess(s[2], s[3]);
    assert LexLess(s[3], s[4]);
    assert LexLess(s[4], s[5]);
    assert LexLess(s[5], s[6]);
    assert LexLess(s[6], s[7]);
    forall i | 0 <= i < |s| - 1 ensures LexLess(s[i], s[i + 1]) {
      assert i == 0 || i == 1 || i == 2 || i == 3 || i == 4 || i == 5 || i == 6;
    }
  }

  function NameSorted6(): seq<string>
  {
    ["碳酸锂", "粳稻", "粳米", "精对苯二甲酸PTA", "红枣", "纤板", "纯碱", "纯苯"]
  }
  lemma NameSorted6Ascending()
    ensures Ascending(NameSorted6())
  {
    var s := NameSorted6();
    assert LexLess(s[0], s[1]);
    assert LexLess(s[1], s[2]);
    assert LexLess(s[2], s[3]);
    assert LexLess(s[3], s[4]);
    assert LexLess(s[4], s[5]);
    assert LexLess(s[5], s[6]);
    assert LexLess(s[6], s[7]);
    forall i | 0 <= i < |s| - 1 ensures LexLess(s[i], s[i + 1]) {
      assert i == 0 || i == 1 || i == 2 || i == 3 || i == 4 || i == 5 || i == 6;
    }
  }

  function NameSorted7(): seq<string>
  {
    ["线材", "聚丙烯", "聚乙烯LLDPE", "聚氯乙稀PVC", "胶板", "花生仁", "苯乙烯", "苹果"]
  }
  lemma NameSorted7Ascending()
    ensures Ascending(NameSorted7())
  {
    var s := NameSorted7();
    assert LexLess(s[0], s[1]);
    assert LexLess(s[1], s[2]);
    assert LexLess(s[2], s[3]);
    assert LexLess(s[3], s[4]);
    assert LexLess(s[4], s[5]);
    assert LexLess(s[5], s[6]);
    assert LexLess(s[6], s[7]);
    forall i | 0 <= i < |s| - 1 ensures LexLess(s[i], s[i + 1]) {
      assert i == 0 || i == 1 || i == 2 || i == 3 || i == 4 || i == 5 || i == 6;
    }
  }

  function NameSorted8(): seq<string>
  {
    ["菜籽", "菜籽油", "菜籽粕", "螺纹钢", "豆油", "豆粕", "针叶木浆", "铁矿石"]
  }
  lemma NameSorted8Ascending()
    ensures Ascending(NameSorted8())
  {
    var s := NameSorted8();
    assert LexLess(s[0], s[1]);
    assert LexLess(s[1], s[2]);
    assert LexLess(s[2], s[3]);
    assert LexLess(s[3], s[4]);
    assert LexLess(s[4], s[5]);
    assert LexLess(s[5], s[6]);
    assert LexLess(s[6], s[7]);
    forall i | 0 <= i < |s| - 1 ensures LexLess(s[i], s[i + 1]) {
      assert i == 0 || i == 1 || i == 2 || i == 3 || i == 4 || i == 5 || i == 6;
    }
  }

  function NameSorted9(): seq<string>
  {
    ["铅", "铜", "铝", "铝合金", "锌", "锡", "锰硅", "镍"]
  }
  lemma NameSorted9Ascending()
    ensures Ascending(NameSorted9())
  {
    var s := NameSorted9();
    assert LexLess(s[0], s[1]);
    assert LexLess(s[1], s[2]);
    assert LexLess(s[2], s[3]);
    assert LexLess(s[3], s[4]);
    assert LexLess(s[4], s[5]);
    assert LexLess(s[5], s[6]);
    assert LexLess(s[6], s[7]);
    forall i | 0 <= i < |s| - 1 ensures LexLess(s[i], s[i + 1]) {
      assert i == 0 || i == 1 || i == 2 || i == 3 || i == 4 || i == 5 || i == 6;
    }
  }

  function NameSorted10(): seq<string>
  {
    ["顺丁橡胶", "鸡蛋", "黄大豆1号", "黄大豆2号", "黄金"]
  }
  lemma NameSorted10Ascending()
    ensures Ascending(NameSorted10())
  {
    var s := NameSorted10();
    assert LexLess(s[0], s[1]);
    assert LexLess(s[1], s[2]);
    assert LexLess(s[2], s[3]);
    assert LexLess(s[3], s[4]);
    forall i | 0 <= i < |s| - 1 ensures LexLess(s[i], s[i + 1]) {
      assert i == 0 || i == 1 || i == 2 || i == 3;
    }
  }

  /** The same 85 strings in ascending order. */
  function NameSorted(): seq<string>
  {
    NameSorted0() + NameSorted1() + NameSorted2() + NameSorted3() + NameSorted4() + NameSorted5() + NameSorted6() + NameSorted7() + NameSorted8() + NameSorted9() + NameSorted10()
  }

  lemma NameSortedAscending()
    ensures Ascending(NameSorted())
  {
    NameSorted0Ascending();
    NameSorted1Ascending();
    NameSorted2Ascending();
    NameSorted3Ascending();
    NameSorted4Ascending();
    NameSorted5Ascending();
    NameSorted6Ascending();
    NameSorted7Ascending();
    NameSorted8Ascending();
    NameSorted9Ascending();
    NameSorted10Ascending();
    assert LexLess("丙烯", "中证1000股指");
    AscendingAppend(NameSorted0(), NameSorted1());
    assert LexLess("国际铜", "多晶硅");
    AscendingAppend(NameSorted0() + NameSorted1(), NameSorted2());
    assert LexLess("普麦", "棉纱");
    AscendingAppend(NameSorted0() + NameSorted1() + NameSorted2(), NameSorted3());
    assert LexLess("沪深300股指", "液化石油气");
    AscendingAppend(NameSorted0() + NameSorted1() + NameSorted2() + NameSorted3(), NameSorted4());
    assert LexLess("玉米", "玻璃");
    AscendingAppend(NameSorted0() + NameSorted1() + NameSorted2() + NameSorted3() + NameSorted4(), NameSorted5());
    assert LexLess("硅铁", "碳酸锂");
    AscendingAppend(NameSorted0() + NameSorted1() + NameSorted2() + NameSorted3() + NameSorted4() + NameSorted5(), NameSorted6());
    assert LexLess("纯苯", "线材");
    AscendingAppend(NameSorted0() + NameSorted1() + NameSorted2() + NameSorted3() + NameSorted4() + NameSorted5() + NameSorted6(), NameSorted7());
    assert LexLess("苹果", "菜籽");
    AscendingAppend(NameSorted0() + NameSorted1() + NameSorted2() + NameSorted3() + NameSorted4() + NameSorted5() + NameSorted6() + NameSorted7(), NameSorted8());
    assert LexLess("铁矿石", "铅");
    AscendingAppend(NameSorted0() + NameSorted1() + NameSorted2() + NameSorted3() + NameSorted4() + NameSorted5() + NameSorted6() + NameSorted7() + NameSorted8(), NameSorted9());
    assert LexLess("镍", "顺丁橡胶");
    AscendingAppend(NameSorted0() + NameSorted1() + NameSorted2() + NameSorted3() + NameSorted4() + NameSorted5() + NameSorted6() + NameSorted7() + NameSorted8() + NameSorted9(), NameSorted10());
  }

  lemma NameSorted0Covered()
    ensures forall x | x in NameSorted0() :: x in Vals(NamePairs())
  {
    var t := Vals(NamePairs());
    assert t[73] == "10年期国债";
    assert t[44] == "20号胶";
    assert t[77] == "2年期国债";
    assert t[76] == "30年期国债";
    assert t[75] == "5年期国债";
    assert t[29] == "上证50股指";
    assert t[72] == "不锈钢";
    assert t[51] == "丙烯";
  }

  lemma NameSorted1Covered()
    ensures forall x | x in NameSorted1() :: x in Vals(NamePairs())
  {
    var t := Vals(NamePairs());
    assert t[30] == "中证1000股指";
    assert t[27] == "中证500股指";
    assert t[21] == "乙二醇";
    assert t[40] == "低硫燃料油";
    assert t[83] == "动力煤";
    assert t[37] == "原木";
    assert t[64] == "原油";
    assert t[9] == "国际铜";
  }

  lemma NameSorted2Covered()
    ensures forall x | x in NameSorted2() :: x in Vals(NamePairs())
  {
    var t := Vals(NamePairs());
    assert t[55] == "多晶硅";
    assert t[56] == "对二甲苯";
    assert t[78] == "尿素";
    assert t[67] == "工业硅";
    assert t[80] == "强麦";
    assert t[58] == "早稻";
    assert t[39] == "晚稻";
    assert t[52] == "普麦";
  }

  lemma NameSorted3Covered()
    ensures forall x | x in NameSorted3() :: x in Vals(NamePairs())
  {
    var t := Vals(NamePairs());
    assert t[18] == "棉纱";
    assert t[14] == "棉花";
    assert t[46] == "棕榈油";
    assert t[62] == "橡胶";
    assert t[20] == "欧线集运";
    assert t[4] == "氧化铝";
    assert t[11] == "沥青";
    assert t[28] == "沪深300股指";
  }

  lemma NameSorted4Covered()
    ensures forall x | x in NameSorted4() :: x in Vals(NamePairs())
  {
    var t := Vals(NamePairs());
    assert t[49] == "液化石油气";
    assert t[16] == "淀粉";
    assert t[66] == "烧碱";
    assert t[25] == "热轧卷板";
    assert t[31] == "焦炭";
    assert t[33] == "焦煤";
    assert t[24] == "燃料油";
    assert t[13] == "玉米";
  }

  lemma NameSorted5Covered()
    ensures forall x | x in NameSorted5() :: x in Vals(NamePairs())
  {
    var t := Vals(NamePairs());
    assert t[23] == "玻璃";
    assert t[54] == "瓶片";
    assert t[38] == "生猪";
    assert t[42] == "甲醇";
    assert t[71] == "白糖";
    assert t[2] == "白银";
    assert t[48] == "短纤";
    assert t[65] == "硅铁";
  }

  lemma NameSorted6Covered()
    ensures forall x | x in NameSorted6() :: x in Vals(NamePairs())
  {
    var t := Vals(NamePairs());
    assert t[36] == "碳酸锂";
    assert t[34] == "粳稻";
    assert t[60] == "粳米";
    assert t[74] == "精对苯二甲酸PTA";
    assert t[15] == "红枣";
    assert t[22] == "纤板";
    assert t[63] == "纯碱";
    assert t[12] == "纯苯";
  }

  lemma NameSorted7Covered()
    ensures forall x | x in NameSorted7() :: x in Vals(NamePairs())
  {
    var t := Vals(NamePairs());
    assert t[81] == "线材";
    assert t[53] == "聚丙烯";
    assert t[35] == "聚乙烯LLDPE";
    assert t[79] == "聚氯乙稀PVC";
    assert t[8] == "胶板";
    assert t[50] == "花生仁";
    assert t[19] == "苯乙烯";
    assert t[5] == "苹果";
  }

  lemma NameSorted8Covered()
    ensures forall x | x in NameSorted8() :: x in Vals(NamePairs())
  {
    var t := Vals(NamePairs());
    assert t[61] == "菜籽";
    assert t[45] == "菜籽油";
    assert t[59] == "菜籽粕";
    assert t[57] == "螺纹钢";
    assert t[82] == "豆油";
    assert t[41] == "豆粕";
    assert t[70] == "针叶木浆";
    assert t[26] == "铁矿石";
  }

  lemma NameSorted9Covered()
    ensures forall x | x in NameSorted9() :: x in Vals(NamePairs())
  {
    var t := Vals(NamePairs());
    assert t[47] == "铅";
    assert t[17] == "铜";
    assert t[3] == "铝";
    assert t[1] == "铝合金";
    assert t[84] == "锌";
    assert t[69] == "锡";
    assert t[68] == "锰硅";
    assert t[43] == "镍";
  }

  lemma NameSorted10Covered()
    ensures forall x | x in NameSorted10() :: x in Vals(NamePairs())
  {
    var t := Vals(NamePairs());
    assert t[10] == "顺丁橡胶";
    assert t[32] == "鸡蛋";
    assert t[0] == "黄大豆1号";
    assert t[7] == "黄大豆2号";
    assert t[6] == "黄金";
  }

  /** No string repeats: the ascending copy holds as many strings, all
      of them taken from the list. */
  lemma NameDistinct()
    ensures NoDup(Vals(NamePairs()))
  {
    NameSortedAscending();
    AscendingNoDup(NameSorted());
    NameSorted0Covered();
    NameSorted1Covered();
    NameSorted2Covered();
    NameSorted3Covered();
    NameSorted4Covered();
    NameSorted5Covered();
    NameSorted6Covered();
    NameSorted7Covered();
    NameSorted8Covered();
    NameSorted9Covered();
    NameSorted10Covered();
    NoDupByCover(Vals(NamePairs()), NameSorted());
  }

  /* ---------------------------------------------------------- extraction */

  /** The first `n` characters of `c` are one to four upper-case letters
      and the rest are three or four digits. */
  predicate LettersThenDigits(c: string, n: int)
  {
    1 <= n <= 4 && n + 3 <= |c| <= n + 4 && AllUpper(c[..n]) && AllDigits(c[n..])
  }

  /** Letters and digits are disjoint, so the split point is unique. */
  lemma LettersThenDigitsUnique(c: string, n: int)
    requires LettersThenDigits(c, n)
    ensures forall m :: LettersThenDigits(c, m) ==> m == n
  {
    forall m | m != n ensures !LettersThenDigits(c, m) {
      if n < m <= |c| {
        assert c[..m][n] == c[n..][0];
      } else if m < n && 0 <= m {
        assert c[..n][m] == c[m..][0];
      }
    }
  }

  /** Tries the split points `n`, `n + 1`, ..., 4 in turn. */
  function SplitFrom(c: string, n: int): (p: Option<string>)
    requires 1 <= n
    ensures p.Some? <==> exists m :: n <= m && LettersThenDigits(c, m)
    ensures p.Some? ==> LettersThenDigits(c, |p.value|) && p.value == c[..|p.value|]
    decreases 5 - n
  {
    if n > 4 then None
    else if LettersThenDigits(c, n) then Some(c[..n])
    else SplitFrom(c, n + 1)
  }

  /** `re.match(r"^([A-Z]{1,4})\d{3,4}$", u).group(1)`, or `None` when the
      pattern does not match. The pattern's `$` also accepts one final
      newline. */
  function LettersBeforeMonth(u: string): (p: Option<string>)
    ensures p.Some? <==> exists n :: LettersThenDigits(Chomp(u), n)
    ensures p.Some? ==> LettersThenDigits(Chomp(u), |p.value|) && p.value == Chomp(u)[..|p.value|]
  {
    SplitFrom(Chomp(u), 1)
  }

  /** `get_futures_product`: upper-case the symbol, then drop a final "99";
      failing that, keep only the letters of a letters-then-digits code;
      failing that, keep the upper-cased symbol whole, whatever it holds
      (an exchange prefix, a dot, a stray character). Whatever it returns
      is an upper-case prefix of the upper-cased symbol. (The source
      annotates the result as a dict; it is a string.) */
  function GetFuturesProduct(symbol: string): (p: string)
    ensures StartsWith(Upper(symbol), p)
    ensures NoLower(p)
    ensures EndsWith(Upper(symbol), "99") ==> p + "99" == Upper(symbol)
    ensures !EndsWith(Upper(symbol), "99") && (exists n :: LettersThenDigits(Chomp(Upper(symbol)), n)) ==>
              LettersThenDigits(Chomp(Upper(symbol)), |p|) && p == Chomp(Upper(symbol))[..|p|]
    ensures !EndsWith(Upper(symbol), "99") && (forall n :: !LettersThenDigits(Chomp(Upper(symbol)), n)) ==>
              p == Upper(symbol)
  {
    var u := Upper(symbol);
    if EndsWith(u, "99") then u[..|u| - 2]
    else match LettersBeforeMonth(u)
      case Some(letters) => letters
      case None => u
  }

  /** An index code: whatever precedes "99" is the product. */
  lemma ProductOfIndexCode(symbol: string, product: string)
    requires Upper(symbol) == product + "99"
    ensures GetFuturesProduct(symbol) == product
  {
    var u := Upper(symbol);
    assert u[|u| - 2..] == "99";
    assert u[..|u| - 2] == product;
  }

  /** A dated code (one to four letters, three or four digits, possibly a
      final newline) that does not end in "99" yields its letters. */
  lemma ProductOfDatedCode(symbol: string, letters: string, digits: string)
    requires Chomp(Upper(symbol)) == letters + digits
    requires 1 <= |letters| <= 4 && AllUpper(letters)
    requires 3 <= |digits| <= 4 && AllDigits(digits)
    requires !EndsWith(Upper(symbol), "99")
    ensures GetFuturesProduct(symbol) == letters
  {
    var c := Chomp(Upper(symbol));
    assert c[..|letters|] == letters && c[|letters|..] == digits;
    assert LettersThenDigits(c, |letters|);
    LettersThenDigitsUnique(c, |letters|);
  }

  /** A symbol made of letters only (a product code in any case) is
      returned upper-cased. */
  lemma ProductOfLetters(symbol: string)
    requires AllLetters(symbol)
    ensures GetFuturesProduct(symbol) == Upper(symbol)
  {
    var u := Upper(symbol);
    assert AllUpper(u);
    assert !EndsWith(u, "99") by {
      if |u| >= 2 {
        assert u[|u| - 2..][1] == u[|u| - 1];
      }
    }
    assert Chomp(u) == u by {
      if |u| > 0 {
        assert u[|u| - 1] != '\n';
      }
    }
    forall n ensures !LettersThenDigits(u, n) {
      if 1 <= n && n + 3 <= |u| {
        assert u[n..][0] == u[n];
      }
    }
  }

  /** An exchange-prefixed code matches neither pattern and comes back
      whole, upper-cased: the prefix is not stripped. */
  lemma ProductKeepsExchangePrefix()
    ensures GetFuturesProduct("SHFE.cu") == "SHFE.CU"
  {
    var u := Upper("SHFE.cu");
    assert u == "SHFE.CU";
    forall n ensures !LettersThenDigits(Chomp(u), n) {
      if 1 <= n <= 4 && n + 3 <= 7 {
        assert u[n..][4 - n] == '.';
      }
    }
  }

  /** The product does not depend on the symbol's letter case. */
  lemma ProductIgnoresCase(symbol: string)
    ensures GetFuturesProduct(symbol) == GetFuturesProduct(Upper(symbol))
  {
    UpperIdempotent(symbol);
  }

  /** `get_futures_product("fg99") == "FG"`. */
  lemma ProductExampleIndex()
    ensures GetFuturesProduct("fg99") == "FG"
  {
    ProductOfIndexCode("fg99", "FG");
  }

  /** `get_futures_product("CU999") == "CU9"`: the "99" rule comes first. */
  lemma ProductExampleTripleNine()
    ensures GetFuturesProduct("CU999") == "CU9"
  {
    ProductOfIndexCode("CU999", "CU9");
  }

  /** `get_futures_product("TA601") == "TA"`. */
  lemma ProductExampleDated()
    ensures GetFuturesProduct("TA601") == "TA"
  {
    var u := Upper("TA601");
    assert u == "TA601";
    assert Chomp(u) == "TA" + "601";
    ProductOfDatedCode("TA601", "TA", "601");
  }

  /* -------------------------------------------------------------- lookups */

  /** `get_futures_name`: the table's name for the symbol's product, or
      "期货" followed by the product when the table has none. */
  function GetFuturesName(symbol: string): (name: string)
    ensures var p := GetFuturesProduct(symbol);
      || (p, name) in NamePairs()
      || (p !in Keys(NamePairs()) && name == "期货" + p)
  {
    var p := GetFuturesProduct(symbol);
    if p in NameMapping() then NameMapping()[p] else "期货" + p
  }

  /** `get_futures_code`: the code whose table name is `name`, or "" when no
      product carries that name. */
  function GetFuturesCode(name: string): (code: string)
    ensures code != "" <==> name in Vals(NamePairs())
    ensures code != "" ==> (code, name) in NamePairs()
  {
    SwappedKeys(NamePairs());
    if name in CodeMapping() then
      var code := CodeMapping()[name];
      SwappedPair(NamePairs(), name, code);
      TableKeysShape();
      assert code in Keys(NamePairs());
      code
    else ""
  }

  lemma SwappedPair(ps: Pairs, a: string, b: string)
    requires (a, b) in Swapped(ps)
    ensures (b, a) in ps
  {
    var i :| 0 <= i < |Swapped(ps)| && Swapped(ps)[i] == (a, b);
    assert ps[i] == (b, a);
  }

  /** Looking a product's name up and then the name's code gives the product
      back: the keys are letter codes that extraction keeps as they are, and
      the names are pairwise distinct. */
  lemma NameCodeRoundTrip(k: string)
    requires k in NameMapping()
    ensures GetFuturesCode(GetFuturesName(k)) == k
  {
    var i :| 0 <= i < |NamePairs()| && NamePairs()[i].0 == k;
    TableKeysShape();
    ProductOfLetters(k);
    UpperOfNoLower(k);
    TableKeysDistinct();
    MapOfDistinct(NamePairs(), i);
    var name := NamePairs()[i].1;
    assert GetFuturesName(k) == name;
    NameDistinct();
    SwappedKeys(NamePairs());
    MapOfDistinct(Swapped(NamePairs()), i);
  }

  /** Conversely, a table name's code names the same product. */
  lemma CodeNameRoundTrip(name: string)
    requires name in Vals(NamePairs())
    ensures GetFuturesName(GetFuturesCode(name)) == name
  {
    var k := GetFuturesCode(name);
    var i :| 0 <= i < |NamePairs()| && NamePairs()[i] == (k, name);
    TableKeysShape();
    ProductOfLetters(k);
    UpperOfNoLower(k);
    TableKeysDistinct();
    MapOfDistinct(NamePairs(), i);
  }

  /** A product outside the table gets a made-up name that is no table
      name, so looking its code up finds nothing. */
  lemma FallbackNameHasNoCode(symbol: string)
    requires GetFuturesProduct(symbol) !in NameMapping()
    ensures GetFuturesCode(GetFuturesName(symbol)) == ""
  {
    var name := GetFuturesName(symbol);
    assert name[0] == '期';
    TableNamesNotFallback();
  }
}
