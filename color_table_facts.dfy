/**
 * Facts about the colour table of get_color_name, established a half row at a time: every key
 * is six hex digits, and the colours looked up below occur only where the lookups say.
 */
module ColorTableFacts {
  import opened PyBase
  import opened HexColors
  import opened ColorTable
  import opened ColorNames

  /** The colours looked up below. */
  predicate Probed(c: nat) {
    c == 0xFF0000 || c == 0x000000 || c == 0x007BA7 || c == 0xD2691E
  }

  lemma Row164Keys0()
    ensures forall i | 0 <= i < 13 ::
      KeyCode(Row164[i].0) < 0x100_0000 && !Probed(KeyCode(Row164[i].0))
  {
  }

  lemma Row164Keys13()
    ensures forall i | 13 <= i < 26 ::
      KeyCode(Row164[i].0) < 0x100_0000 && !Probed(KeyCode(Row164[i].0))
  {
  }

  lemma Row165Keys0()
    ensures forall i | 0 <= i < 13 ::
      KeyCode(Row165[i].0) < 0x100_0000 && !Probed(KeyCode(Row165[i].0))
  {
  }

  lemma Row165Keys13()
    ensures forall i | 13 <= i < 26 ::
      KeyCode(Row165[i].0) < 0x100_0000 && !Probed(KeyCode(Row165[i].0))
  {
  }

  lemma Row166Keys0()
    ensures forall i | 0 <= i < 13 ::
      KeyCode(Row166[i].0) < 0x100_0000 && (Probed(KeyCode(Row166[i].0)) ==> i == 11)
  {
  }

  lemma Row166Keys13()
    ensures forall i | 13 <= i < 26 ::
      KeyCode(Row166[i].0) < 0x100_0000 && !Probed(KeyCode(Row166[i].0))
  {
  }

  lemma Row167Keys0()
    ensures forall i | 0 <= i < 13 ::
      KeyCode(Row167[i].0) < 0x100_0000 && !Probed(KeyCode(Row167[i].0))
  {
  }

  lemma Row167Keys13()
    ensures forall i | 13 <= i < 26 ::
      KeyCode(Row167[i].0) < 0x100_0000 && !Probed(KeyCode(Row167[i].0))
  {
  }

  lemma Row168Keys0()
    ensures forall i | 0 <= i < 13 ::
      KeyCode(Row168[i].0) < 0x100_0000 && !Probed(KeyCode(Row168[i].0))
  {
  }

  lemma Row168Keys13()
    ensures forall i | 13 <= i < 26 ::
      KeyCode(Row168[i].0) < 0x100_0000 && !Probed(KeyCode(Row168[i].0))
  {
  }

  lemma Row169Keys0()
    ensures forall i | 0 <= i < 13 ::
      KeyCode(Row169[i].0) < 0x100_0000 && !Probed(KeyCode(Row169[i].0))
  {
  }

  lemma Row169Keys13()
    ensures forall i | 13 <= i < 26 ::
      KeyCode(Row169[i].0) < 0x100_0000 && (Probed(KeyCode(Row169[i].0)) ==> i == 23)
  {
  }

  lemma Row170Keys0()
    ensures forall i | 0 <= i < 13 ::
      KeyCode(Row170[i].0) < 0x100_0000 && (Probed(KeyCode(Row170[i].0)) ==> i == 2)
  {
  }

  lemma Row170Keys13()
    ensures forall i | 13 <= i < 26 ::
      KeyCode(Row170[i].0) < 0x100_0000 && (Probed(KeyCode(Row170[i].0)) ==> i == 23)
  {
  }

  lemma Row171Keys0()
    ensures forall i | 0 <= i < 13 ::
      KeyCode(Row171[i].0) < 0x100_0000 && (Probed(KeyCode(Row171[i].0)) ==> i == 6)
  {
  }

  lemma Row171Keys13()
    ensures forall i | 13 <= i < 26 ::
      KeyCode(Row171[i].0) < 0x100_0000 && !Probed(KeyCode(Row171[i].0))
  {
  }

  lemma Row172Keys0()
    ensures forall i | 0 <= i < 13 ::
      KeyCode(Row172[i].0) < 0x100_0000 && !Probed(KeyCode(Row172[i].0))
  {
  }

  lemma Row172Keys13()
    ensures forall i | 13 <= i < 26 ::
      KeyCode(Row172[i].0) < 0x100_0000 && !Probed(KeyCode(Row172[i].0))
  {
  }

  lemma Row173Keys0()
    ensures forall i | 0 <= i < 13 ::
      KeyCode(Row173[i].0) < 0x100_0000 && !Probed(KeyCode(Row173[i].0))
  {
  }

  lemma Row173Keys13()
    ensures forall i | 13 <= i < 26 ::
      KeyCode(Row173[i].0) < 0x100_0000 && !Probed(KeyCode(Row173[i].0))
  {
  }

  lemma Row174Keys0()
    ensures forall i | 0 <= i < 13 ::
      KeyCode(Row174[i].0) < 0x100_0000 && !Probed(KeyCode(Row174[i].0))
  {
  }

  lemma Row174Keys13()
    ensures forall i | 13 <= i < 26 ::
      KeyCode(Row174[i].0) < 0x100_0000 && !Probed(KeyCode(Row174[i].0))
  {
  }

  lemma Row175Keys0()
    ensures forall i | 0 <= i < 13 ::
      KeyCode(Row175[i].0) < 0x100_0000 && !Probed(KeyCode(Row175[i].0))
  {
  }

  lemma Row175Keys13()
    ensures forall i | 13 <= i < 26 ::
      KeyCode(Row175[i].0) < 0x100_0000 && !Probed(KeyCode(Row175[i].0))
  {
  }

  lemma Row176Keys0()
    ensures forall i | 0 <= i < 13 ::
      KeyCode(Row176[i].0) < 0x100_0000 && !Probed(KeyCode(Row176[i].0))
  {
  }

  lemma Row176Keys13()
    ensures forall i | 13 <= i < 26 ::
      KeyCode(Row176[i].0) < 0x100_0000 && !Probed(KeyCode(Row176[i].0))
  {
  }

  lemma Row177Keys0()
    ensures forall i | 0 <= i < 13 ::
      KeyCode(Row177[i].0) < 0x100_0000 && !Probed(KeyCode(Row177[i].0))
  {
  }

  lemma Row177Keys13()
    ensures forall i | 13 <= i < 26 ::
      KeyCode(Row177[i].0) < 0x100_0000 && !Probed(KeyCode(Row177[i].0))
  {
  }

  lemma Row178Keys0()
    ensures forall i | 0 <= i < 13 ::
      KeyCode(Row178[i].0) < 0x100_0000 && !Probed(KeyCode(Row178[i].0))
  {
  }

  lemma Row178Keys13()
    ensures forall i | 13 <= i < 26 ::
      KeyCode(Row178[i].0) < 0x100_0000 && !Probed(KeyCode(Row178[i].0))
  {
  }

  lemma Row179Keys0()
    ensures forall i | 0 <= i < 13 ::
      KeyCode(Row179[i].0) < 0x100_0000 && !Probed(KeyCode(Row179[i].0))
  {
  }

  lemma Row179Keys13()
    ensures forall i | 13 <= i < 26 ::
      KeyCode(Row179[i].0) < 0x100_0000 && !Probed(KeyCode(Row179[i].0))
  {
  }

  lemma Row180Keys0()
    ensures forall i | 0 <= i < 13 ::
      KeyCode(Row180[i].0) < 0x100_0000 && !Probed(KeyCode(Row180[i].0))
  {
  }

  lemma Row180Keys13()
    ensures forall i | 13 <= i < 26 ::
      KeyCode(Row180[i].0) < 0x100_0000 && !Probed(KeyCode(Row180[i].0))
  {
  }

  lemma Row181Keys0()
    ensures forall i | 0 <= i < 13 ::
      KeyCode(Row181[i].0) < 0x100_0000 && !Probed(KeyCode(Row181[i].0))
  {
  }

  lemma Row181Keys13()
    ensures forall i | 13 <= i < 26 ::
      KeyCode(Row181[i].0) < 0x100_0000 && !Probed(KeyCode(Row181[i].0))
  {
  }

  lemma Row182Keys0()
    ensures forall i | 0 <= i < 13 ::
      KeyCode(Row182[i].0) < 0x100_0000 && !Probed(KeyCode(Row182[i].0))
  {
  }

  lemma Row182Keys13()
    ensures forall i | 13 <= i < 26 ::
      KeyCode(Row182[i].0) < 0x100_0000 && !Probed(KeyCode(Row182[i].0))
  {
  }

  lemma Row183Keys0()
    ensures forall i | 0 <= i < 13 ::
      KeyCode(Row183[i].0) < 0x100_0000 && !Probed(KeyCode(Row183[i].0))
  {
  }

  lemma Row183Keys13()
    ensures forall i | 13 <= i < 26 ::
      KeyCode(Row183[i].0) < 0x100_0000 && !Probed(KeyCode(Row183[i].0))
  {
  }

  lemma Row184Keys0()
    ensures forall i | 0 <= i < 13 ::
      KeyCode(Row184[i].0) < 0x100_0000 && !Probed(KeyCode(Row184[i].0))
  {
  }

  lemma Row184Keys13()
    ensures forall i | 13 <= i < 26 ::
      KeyCode(Row184[i].0) < 0x100_0000 && !Probed(KeyCode(Row184[i].0))
  {
  }

  lemma Row185Keys0()
    ensures forall i | 0 <= i < 13 ::
      KeyCode(Row185[i].0) < 0x100_0000 && !Probed(KeyCode(Row185[i].0))
  {
  }

  lemma Row185Keys13()
    ensures forall i | 13 <= i < 26 ::
      KeyCode(Row185[i].0) < 0x100_0000 && !Probed(KeyCode(Row185[i].0))
  {
  }

  lemma Row186Keys0()
    ensures forall i | 0 <= i < 13 ::
      KeyCode(Row186[i].0) < 0x100_0000 && !Probed(KeyCode(Row186[i].0))
  {
  }

  lemma Row186Keys13()
    ensures forall i | 13 <= i < 26 ::
      KeyCode(Row186[i].0) < 0x100_0000 && !Probed(KeyCode(Row186[i].0))
  {
  }

  lemma Row187Keys0()
    ensures forall i | 0 <= i < 13 ::
      KeyCode(Row187[i].0) < 0x100_0000 && !Probed(KeyCode(Row187[i].0))
  {
  }

  lemma Row187Keys13()
    ensures forall i | 13 <= i < 26 ::
      KeyCode(Row187[i].0) < 0x100_0000 && !Probed(KeyCode(Row187[i].0))
  {
  }

  lemma Row188Keys0()
    ensures forall i | 0 <= i < 13 ::
      KeyCode(Row188[i].0) < 0x100_0000 && !Probed(KeyCode(Row188[i].0))
  {
  }

  lemma Row188Keys13()
    ensures forall i | 13 <= i < 26 ::
      KeyCode(Row188[i].0) < 0x100_0000 && !Probed(KeyCode(Row188[i].0))
  {
  }

  lemma Row189Keys0()
    ensures forall i | 0 <= i < 13 ::
      KeyCode(Row189[i].0) < 0x100_0000 && !Probed(KeyCode(Row189[i].0))
  {
  }

  lemma Row189Keys13()
    ensures forall i | 13 <= i < 26 ::
      KeyCode(Row189[i].0) < 0x100_0000 && !Probed(KeyCode(Row189[i].0))
  {
  }

  lemma Row190Keys0()
    ensures forall i | 0 <= i < 13 ::
      KeyCode(Row190[i].0) < 0x100_0000 && !Probed(KeyCode(Row190[i].0))
  {
  }

  lemma Row190Keys13()
    ensures forall i | 13 <= i < 26 ::
      KeyCode(Row190[i].0) < 0x100_0000 && !Probed(KeyCode(Row190[i].0))
  {
  }

  lemma Row191Keys0()
    ensures forall i | 0 <= i < 13 ::
      KeyCode(Row191[i].0) < 0x100_0000 && (Probed(KeyCode(Row191[i].0)) ==> i == 5)
  {
  }

  lemma Row191Keys13()
    ensures forall i | 13 <= i < 26 ::
      KeyCode(Row191[i].0) < 0x100_0000 && !Probed(KeyCode(Row191[i].0))
  {
  }

  lemma Row192Keys0()
    ensures forall i | 0 <= i < 13 ::
      KeyCode(Row192[i].0) < 0x100_0000 && !Probed(KeyCode(Row192[i].0))
  {
  }

  lemma Row192Keys13()
    ensures forall i | 13 <= i < 26 ::
      KeyCode(Row192[i].0) < 0x100_0000 && !Probed(KeyCode(Row192[i].0))
  {
  }

  lemma Row193Keys0()
    ensures forall i | 0 <= i < 13 ::
      KeyCode(Row193[i].0) < 0x100_0000 && !Probed(KeyCode(Row193[i].0))
  {
  }

  lemma Row193Keys13()
    ensures forall i | 13 <= i < 26 ::
      KeyCode(Row193[i].0) < 0x100_0000 && !Probed(KeyCode(Row193[i].0))
  {
  }

  lemma Row194Keys0()
    ensures forall i | 0 <= i < 13 ::
      KeyCode(Row194[i].0) < 0x100_0000 && !Probed(KeyCode(Row194[i].0))
  {
  }

  lemma Row194Keys13()
    ensures forall i | 13 <= i < 26 ::
      KeyCode(Row194[i].0) < 0x100_0000 && !Probed(KeyCode(Row194[i].0))
  {
  }

  lemma Row195Keys0()
    ensures forall i | 0 <= i < 13 ::
      KeyCode(Row195[i].0) < 0x100_0000 && !Probed(KeyCode(Row195[i].0))
  {
  }

  lemma Row195Keys13()
    ensures forall i | 13 <= i < 26 ::
      KeyCode(Row195[i].0) < 0x100_0000 && !Probed(KeyCode(Row195[i].0))
  {
  }

  lemma Row196Keys0()
    ensures forall i | 0 <= i < 13 ::
      KeyCode(Row196[i].0) < 0x100_0000 && !Probed(KeyCode(Row196[i].0))
  {
  }

  lemma Row196Keys13()
    ensures forall i | 13 <= i < 26 ::
      KeyCode(Row196[i].0) < 0x100_0000 && !Probed(KeyCode(Row196[i].0))
  {
  }

  lemma Row197Keys0()
    ensures forall i | 0 <= i < 13 ::
      KeyCode(Row197[i].0) < 0x100_0000 && !Probed(KeyCode(Row197[i].0))
  {
  }

  lemma Row197Keys13()
    ensures forall i | 13 <= i < 26 ::
      KeyCode(Row197[i].0) < 0x100_0000 && !Probed(KeyCode(Row197[i].0))
  {
  }

  lemma Row198Keys0()
    ensures forall i | 0 <= i < 13 ::
      KeyCode(Row198[i].0) < 0x100_0000 && !Probed(KeyCode(Row198[i].0))
  {
  }

  lemma Row198Keys13()
    ensures forall i | 13 <= i < 26 ::
      KeyCode(Row198[i].0) < 0x100_0000 && !Probed(KeyCode(Row198[i].0))
  {
  }

  lemma Row199Keys0()
    ensures forall i | 0 <= i < 13 ::
      KeyCode(Row199[i].0) < 0x100_0000 && !Probed(KeyCode(Row199[i].0))
  {
  }

  lemma Row199Keys13()
    ensures forall i | 13 <= i < 26 ::
      KeyCode(Row199[i].0) < 0x100_0000 && !Probed(KeyCode(Row199[i].0))
  {
  }

  lemma Row200Keys0()
    ensures forall i | 0 <= i < 13 ::
      KeyCode(Row200[i].0) < 0x100_0000 && !Probed(KeyCode(Row200[i].0))
  {
  }

  lemma Row200Keys13()
    ensures forall i | 13 <= i < 20 ::
      KeyCode(Row200[i].0) < 0x100_0000 && !Probed(KeyCode(Row200[i].0))
  {
  }

  /** The positions in the literal where a looked-up colour occurs. */
  predicate IsHit(j: nat) {
    j == 63 || j == 153 || j == 158 || j == 179 || j == 188 || j == 707
  }

  /** Row `l` of the literal: every key is six hex digits, and a looked-up colour occurs only at
   *  a hit position. */
  predicate RowKeysOK(row: seq<(string, string)>, l: nat) {
    forall i | 0 <= i < |row| :: KeyCode(row[i].0) < 0x100_0000 && (Probed(KeyCode(row[i].0)) ==> IsHit(26 * l + i))
  }

  lemma Row164OK()
    ensures RowKeysOK(Row164, 0)
  {
    Row164Keys0();
    Row164Keys13();
  }

  lemma Row165OK()
    ensures RowKeysOK(Row165, 1)
  {
    Row165Keys0();
    Row165Keys13();
  }

  lemma Row166OK()
    ensures RowKeysOK(Row166, 2)
  {
    Row166Keys0();
    Row166Keys13();
  }

  lemma Row167OK()
    ensures RowKeysOK(Row167, 3)
  {
    Row167Keys0();
    Row167Keys13();
  }

  lemma Row168OK()
    ensures RowKeysOK(Row168, 4)
  {
    Row168Keys0();
    Row168Keys13();
  }

  lemma Row169OK()
    ensures RowKeysOK(Row169, 5)
  {
    Row169Keys0();
    Row169Keys13();
  }

  lemma Row170OK()
    ensures RowKeysOK(Row170, 6)
  {
    Row170Keys0();
    Row170Keys13();
  }

  lemma Row171OK()
    ensures RowKeysOK(Row171, 7)
  {
    Row171Keys0();
    Row171Keys13();
  }

  lemma Row172OK()
    ensures RowKeysOK(Row172, 8)
  {
    Row172Keys0();
    Row172Keys13();
  }

  lemma Row173OK()
    ensures RowKeysOK(Row173, 9)
  {
    Row173Keys0();
    Row173Keys13();
  }

  lemma Row174OK()
    ensures RowKeysOK(Row174, 10)
  {
    Row174Keys0();
    Row174Keys13();
  }

  lemma Row175OK()
    ensures RowKeysOK(Row175, 11)
  {
    Row175Keys0();
    Row175Keys13();
  }

  lemma Row176OK()
    ensures RowKeysOK(Row176, 12)
  {
    Row176Keys0();
    Row176Keys13();
  }

  lemma Row177OK()
    ensures RowKeysOK(Row177, 13)
  {
    Row177Keys0();
    Row177Keys13();
  }

  lemma Row178OK()
    ensures RowKeysOK(Row178, 14)
  {
    Row178Keys0();
    Row178Keys13();
  }

  lemma Row179OK()
    ensures RowKeysOK(Row179, 15)
  {
    Row179Keys0();
    Row179Keys13();
  }

  lemma Row180OK()
    ensures RowKeysOK(Row180, 16)
  {
    Row180Keys0();
    Row180Keys13();
  }

  lemma Row181OK()
    ensures RowKeysOK(Row181, 17)
  {
    Row181Keys0();
    Row181Keys13();
  }

  lemma Row182OK()
    ensures RowKeysOK(Row182, 18)
  {
    Row182Keys0();
    Row182Keys13();
  }

  lemma Row183OK()
    ensures RowKeysOK(Row183, 19)
  {
    Row183Keys0();
    Row183Keys13();
  }

  lemma Row184OK()
    ensures RowKeysOK(Row184, 20)
  {
    Row184Keys0();
    Row184Keys13();
  }

  lemma Row185OK()
    ensures RowKeysOK(Row185, 21)
  {
    Row185Keys0();
    Row185Keys13();
  }

  lemma Row186OK()
    ensures RowKeysOK(Row186, 22)
  {
    Row186Keys0();
    Row186Keys13();
  }

  lemma Row187OK()
    ensures RowKeysOK(Row187, 23)
  {
    Row187Keys0();
    Row187Keys13();
  }

  lemma Row188OK()
    ensures RowKeysOK(Row188, 24)
  {
    Row188Keys0();
    Row188Keys13();
  }

  lemma Row189OK()
    ensures RowKeysOK(Row189, 25)
  {
    Row189Keys0();
    Row189Keys13();
  }

  lemma Row190OK()
    ensures RowKeysOK(Row190, 26)
  {
    Row190Keys0();
    Row190Keys13();
  }

  lemma Row191OK()
    ensures RowKeysOK(Row191, 27)
  {
    Row191Keys0();
    Row191Keys13();
  }

  lemma Row192OK()
    ensures RowKeysOK(Row192, 28)
  {
    Row192Keys0();
    Row192Keys13();
  }

  lemma Row193OK()
    ensures RowKeysOK(Row193, 29)
  {
    Row193Keys0();
    Row193Keys13();
  }

  lemma Row194OK()
    ensures RowKeysOK(Row194, 30)
  {
    Row194Keys0();
    Row194Keys13();
  }

  lemma Row195OK()
    ensures RowKeysOK(Row195, 31)
  {
    Row195Keys0();
    Row195Keys13();
  }

  lemma Row196OK()
    ensures RowKeysOK(Row196, 32)
  {
    Row196Keys0();
    Row196Keys13();
  }

  lemma Row197OK()
    ensures RowKeysOK(Row197, 33)
  {
    Row197Keys0();
    Row197Keys13();
  }

  lemma Row198OK()
    ensures RowKeysOK(Row198, 34)
  {
    Row198Keys0();
    Row198Keys13();
  }

  lemma Row199OK()
    ensures RowKeysOK(Row199, 35)
  {
    Row199Keys0();
    Row199Keys13();
  }

  lemma Row200OK()
    ensures RowKeysOK(Row200, 36)
  {
    Row200Keys0();
    Row200Keys13();
  }

  /** Rows 0 to 4 of the literal pass RowKeysOK. */
  lemma RowsOK0(l: nat)
    requires 0 <= l < 5
    ensures l < |Rows| && RowKeysOK(Rows[l], l)
  {
    EntriesLength();
    if l == 0 { assert Rows[l] == Row164; Row164OK(); }
    else if l == 1 { assert Rows[l] == Row165; Row165OK(); }
    else if l == 2 { assert Rows[l] == Row166; Row166OK(); }
    else if l == 3 { assert Rows[l] == Row167; Row167OK(); }
    else { assert Rows[l] == Row168; Row168OK(); }
  }

  /** Rows 5 to 6 of the literal pass RowKeysOK. */
  lemma RowsOK5(l: nat)
    requires 5 <= l < 7
    ensures l < |Rows| && RowKeysOK(Rows[l], l)
  {
    EntriesLength();
    if l == 5 { assert Rows[l] == Row169; Row169OK(); }
    else { assert Rows[l] == Row170; Row170OK(); }
  }

  /** Rows 7 to 9 of the literal pass RowKeysOK. */
  lemma RowsOK7(l: nat)
    requires 7 <= l < 10
    ensures l < |Rows| && RowKeysOK(Rows[l], l)
  {
    EntriesLength();
    if l == 7 { assert Rows[l] == Row171; Row171OK(); }
    else if l == 8 { assert Rows[l] == Row172; Row172OK(); }
    else { assert Rows[l] == Row173; Row173OK(); }
  }

  /** Rows 10 to 18 of the literal pass RowKeysOK. */
  lemma RowsOK10(l: nat)
    requires 10 <= l < 19
    ensures l < |Rows| && RowKeysOK(Rows[l], l)
  {
    EntriesLength();
    if l == 10 { assert Rows[l] == Row174; Row174OK(); }
    else if l == 11 { assert Rows[l] == Row175; Row175OK(); }
    else if l == 12 { assert Rows[l] == Row176; Row176OK(); }
    else if l == 13 { assert Rows[l] == Row177; Row177OK(); }
    else if l == 14 { assert Rows[l] == Row178; Row178OK(); }
    else if l == 15 { assert Rows[l] == Row179; Row179OK(); }
    else if l == 16 { assert Rows[l] == Row180; Row180OK(); }
    else if l == 17 { assert Rows[l] == Row181; Row181OK(); }
    else { assert Rows[l] == Row182; Row182OK(); }
  }

  /** Rows 19 to 27 of the literal pass RowKeysOK. */
  lemma RowsOK19(l: nat)
    requires 19 <= l < 28
    ensures l < |Rows| && RowKeysOK(Rows[l], l)
  {
    EntriesLength();
    if l == 19 { assert Rows[l] == Row183; Row183OK(); }
    else if l == 20 { assert Rows[l] == Row184; Row184OK(); }
    else if l == 21 { assert Rows[l] == Row185; Row185OK(); }
    else if l == 22 { assert Rows[l] == Row186; Row186OK(); }
    else if l == 23 { assert Rows[l] == Row187; Row187OK(); }
    else if l == 24 { assert Rows[l] == Row188; Row188OK(); }
    else if l == 25 { assert Rows[l] == Row189; Row189OK(); }
    else if l == 26 { assert Rows[l] == Row190; Row190OK(); }
    else { assert Rows[l] == Row191; Row191OK(); }
  }

  /** Rows 28 to 36 of the literal pass RowKeysOK. */
  lemma RowsOK28(l: nat)
    requires 28 <= l < 37
    ensures l < |Rows| && RowKeysOK(Rows[l], l)
  {
    EntriesLength();
    if l == 28 { assert Rows[l] == Row192; Row192OK(); }
    else if l == 29 { assert Rows[l] == Row193; Row193OK(); }
    else if l == 30 { assert Rows[l] == Row194; Row194OK(); }
    else if l == 31 { assert Rows[l] == Row195; Row195OK(); }
    else if l == 32 { assert Rows[l] == Row196; Row196OK(); }
    else if l == 33 { assert Rows[l] == Row197; Row197OK(); }
    else if l == 34 { assert Rows[l] == Row198; Row198OK(); }
    else if l == 35 { assert Rows[l] == Row199; Row199OK(); }
    else { assert Rows[l] == Row200; Row200OK(); }
  }

  /** Every row of the literal passes RowKeysOK. */
  lemma RowsOK()
    ensures FullRows(Rows)
    ensures forall l | 0 <= l < |Rows| :: RowKeysOK(Rows[l], l)
  {
    EntriesLength();
    forall l | 0 <= l < |Rows| ensures RowKeysOK(Rows[l], l) {
      if l < 5 { RowsOK0(l); } else if l < 7 { RowsOK5(l); } else if l < 10 { RowsOK7(l); } else if l < 19 { RowsOK10(l); } else if l < 28 { RowsOK19(l); } else { RowsOK28(l); }
    }
  }

  /** RowKeysOK of every row carries over to the flattened rows, position by position. */
  lemma FlattenOK(rows: seq<seq<(string, string)>>, j: nat)
    requires FullRows(rows) && forall l | 0 <= l < |rows| :: RowKeysOK(rows[l], l)
    requires j < |Flatten(rows)|
    ensures KeyCode(Flatten(rows)[j].0) < 0x100_0000
    ensures Probed(KeyCode(Flatten(rows)[j].0)) ==> IsHit(j)
  {
    FlattenAt(rows, j);
    assert RowKeysOK(rows[j / 26], j / 26);
  }

  /** Every key of the literal is six hex digits, and a looked-up colour occurs only at a hit. */
  lemma EntryKey(j: nat)
    requires j < |ColorEntries|
    ensures KeyCode(ColorEntries[j].0) < 0x100_0000
    ensures Probed(KeyCode(ColorEntries[j].0)) ==> IsHit(j)
  {
    RowsOK();
    FlattenOK(Rows, j);
  }

  /** hex_to_rgb decodes every key of the literal to three channels. */
  lemma TableValid()
    ensures forall j | 0 <= j < |ColorEntries| :: KeyCode(ColorEntries[j].0) < 0x100_0000
  {
    forall j | 0 <= j < |ColorEntries| ensures KeyCode(ColorEntries[j].0) < 0x100_0000 {
      EntryKey(j);
    }
  }

  lemma Hit63()
    ensures 63 < |ColorEntries| && KeyCode(ColorEntries[63].0) == 0x000000
  {
    EntriesLength();
    EntryAt(63);
    assert ColorEntries[63] == Row166[11];
  }

  lemma Hit153()
    ensures 153 < |ColorEntries| && KeyCode(ColorEntries[153].0) == 0x007BA7
  {
    EntriesLength();
    EntryAt(153);
    assert ColorEntries[153] == Row169[23];
  }

  lemma Hit158()
    ensures 158 < |ColorEntries| && KeyCode(ColorEntries[158].0) == 0x007BA7
  {
    EntriesLength();
    EntryAt(158);
    assert ColorEntries[158] == Row170[2];
  }

  lemma Hit179()
    ensures 179 < |ColorEntries| && KeyCode(ColorEntries[179].0) == 0xD2691E
  {
    EntriesLength();
    EntryAt(179);
    assert ColorEntries[179] == Row170[23];
  }

  lemma Hit188()
    ensures 188 < |ColorEntries| && KeyCode(ColorEntries[188].0) == 0xD2691E
  {
    EntriesLength();
    EntryAt(188);
    assert ColorEntries[188] == Row171[6];
  }

  lemma Hit707()
    ensures 707 < |ColorEntries| && KeyCode(ColorEntries[707].0) == 0xFF0000
  {
    EntriesLength();
    EntryAt(707);
    assert ColorEntries[707] == Row191[5];
  }

  /** The colour 0xFF0000 occurs only at position 707. */
  lemma OnlyRed()
    ensures forall j | 0 <= j < |ColorEntries| && (j < 707 || 707 < j) :: KeyCode(ColorEntries[j].0) != 0xFF0000
  {
    Hit63();
    Hit153();
    Hit158();
    Hit179();
    Hit188();
    forall j | 0 <= j < |ColorEntries| && (j < 707 || 707 < j) ensures KeyCode(ColorEntries[j].0) != 0xFF0000 {
      EntryKey(j);
    }
  }

  lemma RedName()
    ensures Row191[5].1 == "Red"
  {
  }

  /** Where FF0000 sits in the literal, and the name the dict keeps for it. */
  lemma RedAt()
    ensures 707 < |ColorEntries| && KeyCode(ColorEntries[707].0) == 0xFF0000
    ensures ColorEntries[707].1 == "Red"
  {
    EntriesLength();
    Hit707();
    EntryAt(707);
    assert ColorEntries[707] == Row191[5];
    RedName();
  }

  lemma RedInput()
    ensures KeyCode(LStripHash("#FF0000")) == 0xFF0000
  {
    var s := "FF0000";
    assert "#FF0000" == "#" + s;
    LStripOneHash(s);
    KeyCodeSix(s, 15, 15, 0, 0, 0, 0);
  }

  /** get_color_name("#FF0000") is "Red": the table's only FF0000 key. */
  lemma LookupRed()
    ensures ColorName(ColorEntries, "#FF0000") == Ok("Red")
  {
    TableValid();
    OnlyRed();
    RedAt();
    RedInput();
    ExactMatch(ColorEntries, "#FF0000", 707, 707);
  }

  /** The colour 0x000000 occurs only at position 63. */
  lemma OnlyBlack()
    ensures forall j | 0 <= j < |ColorEntries| && (j < 63 || 63 < j) :: KeyCode(ColorEntries[j].0) != 0x000000
  {
    Hit153();
    Hit158();
    Hit179();
    Hit188();
    Hit707();
    forall j | 0 <= j < |ColorEntries| && (j < 63 || 63 < j) ensures KeyCode(ColorEntries[j].0) != 0x000000 {
      EntryKey(j);
    }
  }

  lemma BlackName()
    ensures Row166[11].1 == "Black"
  {
  }

  /** Where 000000 sits in the literal, and the name the dict keeps for it. */
  lemma BlackAt()
    ensures 63 < |ColorEntries| && KeyCode(ColorEntries[63].0) == 0x000000
    ensures ColorEntries[63].1 == "Black"
  {
    EntriesLength();
    Hit63();
    EntryAt(63);
    assert ColorEntries[63] == Row166[11];
    BlackName();
  }

  lemma BlackInput()
    ensures KeyCode(LStripHash("#000000")) == 0x000000
  {
    var s := "000000";
    assert "#000000" == "#" + s;
    LStripOneHash(s);
    KeyCodeSix(s, 0, 0, 0, 0, 0, 0);
  }

  /** get_color_name("#000000") is "Black": the table's only 000000 key. */
  lemma LookupBlack()
    ensures ColorName(ColorEntries, "#000000") == Ok("Black")
  {
    TableValid();
    OnlyBlack();
    BlackAt();
    BlackInput();
    ExactMatch(ColorEntries, "#000000", 63, 63);
  }

  /** The colour 0x007BA7 occurs only at positions 153 to 158. */
  lemma OnlyCerulean()
    ensures forall j | 0 <= j < |ColorEntries| && (j < 153 || 158 < j) :: KeyCode(ColorEntries[j].0) != 0x007BA7
  {
    Hit63();
    Hit179();
    Hit188();
    Hit707();
    forall j | 0 <= j < |ColorEntries| && (j < 153 || 158 < j) ensures KeyCode(ColorEntries[j].0) != 0x007BA7 {
      EntryKey(j);
    }
  }

  lemma CeruleanName()
    ensures Row170[2].1 == "Cerulean"
  {
  }

  lemma CeruleanKeys()
    ensures Row169[23].0 == Row170[2].0
  {
  }

  /** Where 007BA7 sits in the literal, and the name the dict keeps for it. */
  lemma CeruleanAt()
    ensures 158 < |ColorEntries|
    ensures ColorEntries[158].0 == ColorEntries[153].0 && KeyCode(ColorEntries[153].0) == 0x007BA7
    ensures ColorEntries[158].1 == "Cerulean"
  {
    EntriesLength();
    Hit153();
    EntryAt(153);
    EntryAt(158);
    assert ColorEntries[153] == Row169[23];
    assert ColorEntries[158] == Row170[2];
    CeruleanName();
    CeruleanKeys();
  }

  lemma CeruleanInput()
    ensures KeyCode(LStripHash("#007BA7")) == 0x007BA7
  {
    var s := "007BA7";
    assert "#007BA7" == "#" + s;
    LStripOneHash(s);
    KeyCodeSix(s, 0, 0, 7, 11, 10, 7);
  }

  /** get_color_name("#007BA7") is "Cerulean": 007BA7 is written twice, as "Celadon blue" and then as "Cerulean", and the dict keeps the last. */
  lemma LookupCerulean()
    ensures ColorName(ColorEntries, "#007BA7") == Ok("Cerulean")
  {
    TableValid();
    OnlyCerulean();
    CeruleanAt();
    CeruleanInput();
    ExactMatch(ColorEntries, "#007BA7", 153, 158);
  }

  /** The colour 0xD2691E occurs only at positions 179 to 188. */
  lemma OnlyCocoaBrown()
    ensures forall j | 0 <= j < |ColorEntries| && (j < 179 || 188 < j) :: KeyCode(ColorEntries[j].0) != 0xD2691E
  {
    Hit63();
    Hit153();
    Hit158();
    Hit707();
    forall j | 0 <= j < |ColorEntries| && (j < 179 || 188 < j) ensures KeyCode(ColorEntries[j].0) != 0xD2691E {
      EntryKey(j);
    }
  }

  lemma CocoaBrownName()
    ensures Row171[6].1 == "Cocoa brown"
  {
  }

  lemma CocoaBrownKeys()
    ensures Row170[23].0 == Row171[6].0
  {
  }

  /** Where D2691E sits in the literal, and the name the dict keeps for it. */
  lemma CocoaBrownAt()
    ensures 188 < |ColorEntries|
    ensures ColorEntries[188].0 == ColorEntries[179].0 && KeyCode(ColorEntries[179].0) == 0xD2691E
    ensures ColorEntries[188].1 == "Cocoa brown"
  {
    EntriesLength();
    Hit179();
    EntryAt(179);
    EntryAt(188);
    assert ColorEntries[179] == Row170[23];
    assert ColorEntries[188] == Row171[6];
    CocoaBrownName();
    CocoaBrownKeys();
  }

  lemma CocoaBrownInput()
    ensures KeyCode(LStripHash("#D2691E")) == 0xD2691E
  {
    var s := "D2691E";
    assert "#D2691E" == "#" + s;
    LStripOneHash(s);
    KeyCodeSix(s, 13, 2, 6, 9, 1, 14);
  }

  /** get_color_name("#D2691E") is "Cocoa brown": D2691E is written twice, as "Chocolate (web)" and then as "Cocoa brown", and the dict keeps the last. */
  lemma LookupCocoaBrown()
    ensures ColorName(ColorEntries, "#D2691E") == Ok("Cocoa brown")
  {
    TableValid();
    OnlyCocoaBrown();
    CocoaBrownAt();
    CocoaBrownInput();
    ExactMatch(ColorEntries, "#D2691E", 179, 188);
  }

}
