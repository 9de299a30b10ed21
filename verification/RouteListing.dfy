/** The listing is sorted, a few rows at a time, and so pairwise disjoint. */
module RouteListing {
  import opened RouteResolution
  import opened RouteRows
  import opened RouteTable

  /** One list of rows may be put after another. */
  ghost predicate Meets(a: seq<Row>, b: seq<Row>) {
    a != [] && b != [] && forall i | i == |a| - 1 :: Before(a[i], b[0])
  }

  predicate EndsWith(rows: seq<Row>, last: seq<Row>) {
    |last| <= |rows| && rows[|rows| - |last|..] == last
  }

  lemma AtEnd(rows: seq<Row>)
    ensures EndsWith(rows, rows)
  {
  }

  lemma Extend(rows: seq<Row>, last: seq<Row>, next: seq<Row>)
    requires Chain(rows) && EndsWith(rows, last) && Meets(last, next) && Chain(next)
    ensures Chain(rows + next) && EndsWith(rows + next, next)
  {
    ChainJoin(rows, next);
  }

  lemma PathALinked()
    ensures Chain(PATH_A)
  {
    LinkedChain(PATH_A);
  }

  lemma PathBLinked()
    ensures Chain(PATH_B)
  {
    LinkedChain(PATH_B);
  }

  lemma PathBNext()
    ensures Meets(PATH_A, PATH_B)
  {
  }

  lemma PathCLinked()
    ensures Chain(PATH_C)
  {
    LinkedChain(PATH_C);
  }

  lemma PathCNext()
    ensures Meets(PATH_B, PATH_C)
  {
  }

  lemma PathDLinked()
    ensures Chain(PATH_D)
  {
    LinkedChain(PATH_D);
  }

  lemma PathDNext()
    ensures Meets(PATH_C, PATH_D)
  {
  }

  lemma PathELinked()
    ensures Chain(PATH_E)
  {
    LinkedChain(PATH_E);
  }

  lemma PathENext()
    ensures Meets(PATH_D, PATH_E)
  {
  }

  lemma ApplicationLiteralsLinked()
    ensures Chain(APPLICATION_LITERALS)
  {
    LinkedChain(APPLICATION_LITERALS);
  }

  lemma ApplicationLiteralsNext()
    ensures Meets(PATH_E, APPLICATION_LITERALS)
  {
  }

  lemma PathFLinked()
    ensures Chain(PATH_F)
  {
    LinkedChain(PATH_F);
  }

  lemma PathFNext()
    ensures Meets(APPLICATION_LITERALS, PATH_F)
    ensures Meets(APPLICATION_BY_ID, PATH_F)
  {
  }

  lemma DeviceApprovalLiteralsLinked()
    ensures Chain(DEVICE_APPROVAL_LITERALS)
  {
    LinkedChain(DEVICE_APPROVAL_LITERALS);
  }

  lemma DeviceApprovalLiteralsNext()
    ensures Meets(PATH_F, DEVICE_APPROVAL_LITERALS)
  {
  }

  lemma PathGLinked()
    ensures Chain(PATH_G)
  {
    LinkedChain(PATH_G);
  }

  lemma PathGNext()
    ensures Meets(DEVICE_APPROVAL_LITERALS, PATH_G)
    ensures Meets(DEVICE_APPROVAL_BY_ID, PATH_G)
  {
  }

  lemma PathHLinked()
    ensures Chain(PATH_H)
  {
    LinkedChain(PATH_H);
  }

  lemma PathHNext()
    ensures Meets(PATH_G, PATH_H)
  {
  }

  lemma SecretLiteralsLinked()
    ensures Chain(SECRET_LITERALS)
  {
    LinkedChain(SECRET_LITERALS);
  }

  lemma SecretLiteralsNext()
    ensures Meets(PATH_H, SECRET_LITERALS)
  {
  }

  lemma PathILinked()
    ensures Chain(PATH_I)
  {
    LinkedChain(PATH_I);
  }

  lemma PathINext()
    ensures Meets(SECRET_LITERALS, PATH_I)
    ensures Meets(SECRET_BY_ID, PATH_I)
  {
  }

  lemma PathJFirst()
    ensures LinkedFirst(PATH_J)
  {
  }

  lemma PathJLinked()
    ensures Chain(PATH_J)
  {
    hide LinkedFirst;
    PathJFirst();
    LinkedChain(PATH_J);
  }

  lemma PathJNext()
    ensures Meets(PATH_I, PATH_J)
  {
  }

  lemma PathKFirst()
    ensures LinkedFirst(PATH_K)
  {
  }

  lemma PathKLinked()
    ensures Chain(PATH_K)
  {
    hide LinkedFirst;
    PathKFirst();
    LinkedChain(PATH_K);
  }

  lemma PathKNext()
    ensures Meets(PATH_J, PATH_K)
  {
  }

  lemma PathLFirst()
    ensures LinkedFirst(PATH_L)
  {
  }

  lemma PathLLinked()
    ensures Chain(PATH_L)
  {
    hide LinkedFirst;
    PathLFirst();
    LinkedChain(PATH_L);
  }

  lemma PathLNext()
    ensures Meets(PATH_K, PATH_L)
  {
  }

  lemma PathMFirst()
    ensures LinkedFirst(PATH_M)
  {
  }

  lemma PathMLinked()
    ensures Chain(PATH_M)
  {
    hide LinkedFirst;
    PathMFirst();
    LinkedChain(PATH_M);
  }

  lemma PathMNext()
    ensures Meets(PATH_L, PATH_M)
  {
  }

  lemma PathNFirst()
    ensures LinkedFirst(PATH_N)
  {
  }

  lemma PathNLinked()
    ensures Chain(PATH_N)
  {
    hide LinkedFirst;
    PathNFirst();
    LinkedChain(PATH_N);
  }

  lemma PathNNext()
    ensures Meets(PATH_M, PATH_N)
  {
  }

  lemma PathOLinked()
    ensures Chain(PATH_O)
  {
    LinkedChain(PATH_O);
  }

  lemma PathONext()
    ensures Meets(PATH_N, PATH_O)
  {
  }

  lemma PathPLinked()
    ensures Chain(PATH_P)
  {
    LinkedChain(PATH_P);
  }

  lemma PathPNext()
    ensures Meets(PATH_O, PATH_P)
  {
  }

  lemma PathQLinked()
    ensures Chain(PATH_Q)
  {
    LinkedChain(PATH_Q);
  }

  lemma PathQNext()
    ensures Meets(PATH_P, PATH_Q)
  {
  }

  lemma PathRLinked()
    ensures Chain(PATH_R)
  {
    LinkedChain(PATH_R);
  }

  lemma PathRNext()
    ensures Meets(PATH_Q, PATH_R)
  {
  }

  lemma PathSLinked()
    ensures Chain(PATH_S)
  {
    LinkedChain(PATH_S);
  }

  lemma PathSNext()
    ensures Meets(PATH_R, PATH_S)
  {
  }

  lemma PathTFirst()
    ensures LinkedFirst(PATH_T)
  {
  }

  lemma PathTLinked()
    ensures Chain(PATH_T)
  {
    hide LinkedFirst;
    PathTFirst();
    LinkedChain(PATH_T);
  }

  lemma PathTNext()
    ensures Meets(PATH_S, PATH_T)
  {
  }

  lemma PathUFirst()
    ensures LinkedFirst(PATH_U)
  {
  }

  lemma PathULinked()
    ensures Chain(PATH_U)
  {
    hide LinkedFirst;
    PathUFirst();
    LinkedChain(PATH_U);
  }

  lemma PathUNext()
    ensures Meets(PATH_T, PATH_U)
  {
  }

  lemma PathVFirst()
    ensures LinkedFirst(PATH_V)
  {
  }

  lemma PathVLinked()
    ensures Chain(PATH_V)
  {
    hide LinkedFirst;
    PathVFirst();
    LinkedChain(PATH_V);
  }

  lemma PathVNext()
    ensures Meets(PATH_U, PATH_V)
  {
  }

  lemma PathWFirst()
    ensures LinkedFirst(PATH_W)
  {
  }

  lemma PathWLinked()
    ensures Chain(PATH_W)
  {
    hide LinkedFirst;
    PathWFirst();
    LinkedChain(PATH_W);
  }

  lemma PathWNext()
    ensures Meets(PATH_V, PATH_W)
  {
  }

  lemma PathXFirst()
    ensures LinkedFirst(PATH_X)
  {
  }

  lemma PathXLinked()
    ensures Chain(PATH_X)
  {
    hide LinkedFirst;
    PathXFirst();
    LinkedChain(PATH_X);
  }

  lemma PathXNext()
    ensures Meets(PATH_W, PATH_X)
  {
  }

  lemma PathYFirst()
    ensures LinkedFirst(PATH_Y)
  {
  }

  lemma PathYLinked()
    ensures Chain(PATH_Y)
  {
    hide LinkedFirst;
    PathYFirst();
    LinkedChain(PATH_Y);
  }

  lemma PathYNext()
    ensures Meets(PATH_X, PATH_Y)
  {
  }

  lemma PathZFirst()
    ensures LinkedFirst(PATH_Z)
  {
  }

  lemma PathZLinked()
    ensures Chain(PATH_Z)
  {
    hide LinkedFirst;
    PathZFirst();
    LinkedChain(PATH_Z);
  }

  lemma PathZNext()
    ensures Meets(PATH_Y, PATH_Z)
  {
  }

  lemma PathAALinked()
    ensures Chain(PATH_AA)
  {
    LinkedChain(PATH_AA);
  }

  lemma PathAANext()
    ensures Meets(PATH_Z, PATH_AA)
  {
  }

  lemma PathABLinked()
    ensures Chain(PATH_AB)
  {
    LinkedChain(PATH_AB);
  }

  lemma PathABNext()
    ensures Meets(PATH_AA, PATH_AB)
  {
  }

  lemma PathACLinked()
    ensures Chain(PATH_AC)
  {
    LinkedChain(PATH_AC);
  }

  lemma PathACNext()
    ensures Meets(PATH_AB, PATH_AC)
  {
  }

  lemma PathADLinked()
    ensures Chain(PATH_AD)
  {
    LinkedChain(PATH_AD);
  }

  lemma PathADNext()
    ensures Meets(PATH_AC, PATH_AD)
  {
  }

  lemma PathAELinked()
    ensures Chain(PATH_AE)
  {
    LinkedChain(PATH_AE);
  }

  lemma PathAENext()
    ensures Meets(PATH_AD, PATH_AE)
  {
  }

  lemma PathAFLinked()
    ensures Chain(PATH_AF)
  {
    LinkedChain(PATH_AF);
  }

  lemma PathAFNext()
    ensures Meets(PATH_AE, PATH_AF)
  {
  }

  lemma PathAGLinked()
    ensures Chain(PATH_AG)
  {
    LinkedChain(PATH_AG);
  }

  lemma PathAGNext()
    ensures Meets(PATH_AF, PATH_AG)
  {
  }

  lemma ApplicationByIdLinked()
    ensures Chain(APPLICATION_BY_ID)
  {
    LinkedChain(APPLICATION_BY_ID);
  }

  lemma ApplicationByIdNext()
    ensures Meets(PATH_E, APPLICATION_BY_ID)
  {
  }

  lemma DeviceApprovalByIdLinked()
    ensures Chain(DEVICE_APPROVAL_BY_ID)
  {
    LinkedChain(DEVICE_APPROVAL_BY_ID);
  }

  lemma DeviceApprovalByIdNext()
    ensures Meets(PATH_F, DEVICE_APPROVAL_BY_ID)
  {
  }

  lemma SecretByIdLinked()
    ensures Chain(SECRET_BY_ID)
  {
    LinkedChain(SECRET_BY_ID);
  }

  lemma SecretByIdNext()
    ensures Meets(PATH_H, SECRET_BY_ID)
  {
  }

  lemma GetsOneSorted()
    ensures Chain(GetsOne()) && PATH_A <= GetsOne() && EndsWith(GetsOne(), PATH_E)
  {
    hide Chain, EndsWith, Meets;
    PathALinked();
    AtEnd(PATH_A);
    var rows := PATH_A;
    PathBLinked();
    PathBNext();
    Extend(rows, PATH_A, PATH_B);
    rows := rows + PATH_B;
    PathCLinked();
    PathCNext();
    Extend(rows, PATH_B, PATH_C);
    rows := rows + PATH_C;
    PathDLinked();
    PathDNext();
    Extend(rows, PATH_C, PATH_D);
    rows := rows + PATH_D;
    PathELinked();
    PathENext();
    Extend(rows, PATH_D, PATH_E);
    rows := rows + PATH_E;
  }

  lemma GetsTwoSorted()
    ensures Chain(GetsTwo()) && PATH_F <= GetsTwo() && EndsWith(GetsTwo(), PATH_F)
  {
    hide Chain, EndsWith, Meets;
    PathFLinked();
    PathFNext();
    AtEnd(PATH_F);
    var rows := PATH_F;
  }

  lemma GetsThreeSorted()
    ensures Chain(GetsThree()) && PATH_G <= GetsThree() && EndsWith(GetsThree(), PATH_H)
  {
    hide Chain, EndsWith, Meets;
    PathGLinked();
    PathGNext();
    AtEnd(PATH_G);
    var rows := PATH_G;
    PathHLinked();
    PathHNext();
    Extend(rows, PATH_G, PATH_H);
    rows := rows + PATH_H;
  }

  lemma GetsFourSorted()
    ensures Chain(GetsFour()) && PATH_I <= GetsFour() && EndsWith(GetsFour(), PATH_N)
  {
    hide Chain, EndsWith, Meets;
    PathILinked();
    PathINext();
    AtEnd(PATH_I);
    var rows := PATH_I;
    PathJLinked();
    PathJNext();
    Extend(rows, PATH_I, PATH_J);
    rows := rows + PATH_J;
    PathKLinked();
    PathKNext();
    Extend(rows, PATH_J, PATH_K);
    rows := rows + PATH_K;
    PathLLinked();
    PathLNext();
    Extend(rows, PATH_K, PATH_L);
    rows := rows + PATH_L;
    PathMLinked();
    PathMNext();
    Extend(rows, PATH_L, PATH_M);
    rows := rows + PATH_M;
    PathNLinked();
    PathNNext();
    Extend(rows, PATH_M, PATH_N);
    rows := rows + PATH_N;
  }

  lemma OthersOneSorted()
    ensures Chain(OthersOne()) && PATH_O <= OthersOne() && EndsWith(OthersOne(), PATH_T)
  {
    hide Chain, EndsWith, Meets;
    PathOLinked();
    PathONext();
    AtEnd(PATH_O);
    var rows := PATH_O;
    PathPLinked();
    PathPNext();
    Extend(rows, PATH_O, PATH_P);
    rows := rows + PATH_P;
    PathQLinked();
    PathQNext();
    Extend(rows, PATH_P, PATH_Q);
    rows := rows + PATH_Q;
    PathRLinked();
    PathRNext();
    Extend(rows, PATH_Q, PATH_R);
    rows := rows + PATH_R;
    PathSLinked();
    PathSNext();
    Extend(rows, PATH_R, PATH_S);
    rows := rows + PATH_S;
    PathTLinked();
    PathTNext();
    Extend(rows, PATH_S, PATH_T);
    rows := rows + PATH_T;
  }

  lemma OthersTwoSorted()
    ensures Chain(OthersTwo()) && PATH_U <= OthersTwo() && EndsWith(OthersTwo(), PATH_Z)
  {
    hide Chain, EndsWith, Meets;
    PathULinked();
    PathUNext();
    AtEnd(PATH_U);
    var rows := PATH_U;
    PathVLinked();
    PathVNext();
    Extend(rows, PATH_U, PATH_V);
    rows := rows + PATH_V;
    PathWLinked();
    PathWNext();
    Extend(rows, PATH_V, PATH_W);
    rows := rows + PATH_W;
    PathXLinked();
    PathXNext();
    Extend(rows, PATH_W, PATH_X);
    rows := rows + PATH_X;
    PathYLinked();
    PathYNext();
    Extend(rows, PATH_X, PATH_Y);
    rows := rows + PATH_Y;
    PathZLinked();
    PathZNext();
    Extend(rows, PATH_Y, PATH_Z);
    rows := rows + PATH_Z;
  }

  lemma OthersThreeSorted()
    ensures Chain(OthersThree()) && PATH_AA <= OthersThree() && EndsWith(OthersThree(), PATH_AG)
  {
    hide Chain, EndsWith, Meets;
    PathAALinked();
    PathAANext();
    AtEnd(PATH_AA);
    var rows := PATH_AA;
    PathABLinked();
    PathABNext();
    Extend(rows, PATH_AA, PATH_AB);
    rows := rows + PATH_AB;
    PathACLinked();
    PathACNext();
    Extend(rows, PATH_AB, PATH_AC);
    rows := rows + PATH_AC;
    PathADLinked();
    PathADNext();
    Extend(rows, PATH_AC, PATH_AD);
    rows := rows + PATH_AD;
    PathAELinked();
    PathAENext();
    Extend(rows, PATH_AD, PATH_AE);
    rows := rows + PATH_AE;
    PathAFLinked();
    PathAFNext();
    Extend(rows, PATH_AE, PATH_AF);
    rows := rows + PATH_AF;
    PathAGLinked();
    PathAGNext();
    Extend(rows, PATH_AF, PATH_AG);
    rows := rows + PATH_AG;
  }

  lemma Append(rows: seq<Row>, last: seq<Row>, next: seq<Row>, first: seq<Row>, nextLast: seq<Row>)
    requires Chain(rows) && EndsWith(rows, last) && Meets(last, first) && first <= next && Chain(next)
    requires EndsWith(next, nextLast)
    ensures Chain(rows + next) && EndsWith(rows + next, nextLast)
  {
    assert next[0] == first[0];
    ChainJoin(rows, next);
  }

  lemma GetsSorted(wild: bool)
    ensures Chain(Gets(wild)) && EndsWith(Gets(wild), PATH_N)
  {
    GetsOneSorted();
    GetsTwoSorted();
    GetsThreeSorted();
    GetsFourSorted();
    ApplicationLiteralsLinked();
    ApplicationLiteralsNext();
    ApplicationByIdLinked();
    ApplicationByIdNext();
    PathFLinked();
    PathFNext();
    DeviceApprovalLiteralsLinked();
    DeviceApprovalLiteralsNext();
    DeviceApprovalByIdLinked();
    DeviceApprovalByIdNext();
    PathGLinked();
    PathGNext();
    SecretLiteralsLinked();
    SecretLiteralsNext();
    SecretByIdLinked();
    SecretByIdNext();
    PathILinked();
    PathINext();
    hide Chain, EndsWith, Meets, GetsOne, GetsTwo, GetsThree, GetsFour;
    var rows := GetsOne();
    var sibling1 := if wild then APPLICATION_BY_ID else APPLICATION_LITERALS;
    Extend(rows, PATH_E, sibling1);
    rows := rows + sibling1;
    Append(rows, sibling1, GetsTwo(), PATH_F, PATH_F);
    rows := rows + GetsTwo();
    var sibling2 := if wild then DEVICE_APPROVAL_BY_ID else DEVICE_APPROVAL_LITERALS;
    Extend(rows, PATH_F, sibling2);
    rows := rows + sibling2;
    Append(rows, sibling2, GetsThree(), PATH_G, PATH_H);
    rows := rows + GetsThree();
    var sibling3 := if wild then SECRET_BY_ID else SECRET_LITERALS;
    Extend(rows, PATH_H, sibling3);
    rows := rows + sibling3;
    Append(rows, sibling3, GetsFour(), PATH_I, PATH_N);
    rows := rows + GetsFour();
    assert rows == Gets(wild);
  }

  lemma OthersSorted()
    ensures Chain(Others()) && PATH_O <= Others()
  {
    OthersOneSorted();
    OthersTwoSorted();
    OthersThreeSorted();
    PathULinked();
    PathUNext();
    PathAALinked();
    PathAANext();
    hide Chain, EndsWith, Meets, OthersOne, OthersTwo, OthersThree;
    Append(OthersOne(), PATH_T, OthersTwo(), PATH_U, PATH_Z);
    Append(OthersOne() + OthersTwo(), PATH_Z, OthersThree(), PATH_AA, PATH_AG);
  }

  lemma ListingSorted(wild: bool)
    ensures Chain(Gets(wild) + Others())
  {
    GetsSorted(wild);
    OthersSorted();
    PathOLinked();
    PathONext();
    hide Chain, EndsWith, Meets, Gets, Others;
    LastMeets(Gets(wild), PATH_N, Others(), PATH_O);
  }

  lemma LastMeets(rows: seq<Row>, last: seq<Row>, next: seq<Row>, first: seq<Row>)
    requires Chain(rows) && EndsWith(rows, last) && Meets(last, first) && first <= next && Chain(next)
    ensures Chain(rows + next)
  {
    assert next[0] == first[0];
    ChainJoin(rows, next);
  }

  /** A sorted list whose GET rows come first, the deepest at the end. */
  ghost predicate WellListed(gets: seq<Row>, others: seq<Row>) {
    && Chain(gets + others) && gets != [] && others != []
    && gets[|gets| - 1].verb == GET && |Segs(gets[|gets| - 1].path)| == 5 && others[0].verb == POST
  }

  lemma ListingWell(wild: bool)
    ensures WellListed(Gets(wild), Others())
  {
    GetsSorted(wild);
    OthersSorted();
    ListingSorted(wild);
    LastGet();
    FirstOther();
    hide Chain, Gets, Others, Segs;
    assert Gets(wild)[|Gets(wild)| - 1] == PATH_N[|PATH_N| - 1];
    assert Others()[0] == PATH_O[0];
  }

  lemma LastGet()
    ensures forall k | k == |PATH_N| - 1 :: k >= 0 && PATH_N[k].verb == GET && |Segs(PATH_N[k].path)| == 5
  {
  }

  lemma FirstOther()
    ensures forall k | k == 0 :: k < |PATH_O| && PATH_O[k].verb == POST
  {
  }
}
