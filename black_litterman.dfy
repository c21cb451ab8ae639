/**
 * Black–Litterman view handling of the portfolio optimizer: encoding investor views
 * into a picking matrix P and a view vector Q, building the view-uncertainty matrix
 * Omega from the prior covariance Sigma, and the state the optimizer object keeps
 * between those steps. The covariance estimate, the CAPM prior and the posterior
 * optimisation belong to other code and enter as inputs.
 */
module BlackLitterman {
  import opened Wrappers
  import opened Matrices
  import opened ExpectedReturnCalculator

  /**
   * An investor view: the `type` key of the view dictionary and the keys it selects.
   * `OtherType` carries a `type` that is neither "absolute" nor "relative"; its other keys are never read.
   */
  datatype View =
    | Absolute(asset: string, expectedReturn: real)
    | Relative(asset1: string, asset2: string, difference: real)
    | OtherType(kind: string)

  /** The ValueErrors the methods raise. */
  datatype Error =
    | UnknownAsset(ticker: string)  // list.index on a ticker that is not in the list
    | PickingMatrixNotSet           // Omega requested before P exists
    | ShapeMismatch                 // np.dot on P and a Sigma of another size
    | ViewsNotSet                   // optimisation requested before P and Q exist

  /** `j` is the position `list.index` reports for `t`: its first occurrence. */
  predicate FirstOccurrence(tickers: seq<string>, t: string, j: nat) {
    j < |tickers| && tickers[j] == t && forall k :: 0 <= k < j ==> tickers[k] != t
  }

  /** `tickers.index(t)`, with None where Python raises ValueError. */
  function IndexOf(tickers: seq<string>, t: string): (r: Option<nat>)
    ensures r.Some? ==> FirstOccurrence(tickers, t, r.value)
    ensures r.None? <==> t !in tickers
  {
    if tickers == [] then None
    else if tickers[0] == t then Some(0)
    else match IndexOf(tickers[1..], t)
      case None => assert tickers == [tickers[0]] + tickers[1..]; None
      case Some(k) => Some(k + 1)
  }

  function Zeros(n: nat): (z: seq<real>)
    ensures |z| == n && forall j :: 0 <= j < n ==> z[j] == 0.0
  {
    seq(n, _ => 0.0)
  }

  /**
   * One view as its row of P and its entry of Q. An absolute view puts 1 at its asset;
   * a relative view puts 1 at its first asset and then -1 at its second, so a view
   * relating an asset to itself leaves a single -1; any other type leaves zeros.
   */
  function EncodeView(tickers: seq<string>, v: View): (r: Result<(seq<real>, real), Error>)
    ensures r.Ok? ==> |r.value.0| == |tickers|
    ensures v.Absolute? && v.asset !in tickers ==> r == Err(UnknownAsset(v.asset))
    ensures v.Absolute? && v.asset in tickers ==>
      && r.Ok?
      && r.value.1 == v.expectedReturn
      && forall j :: 0 <= j < |tickers| ==>
           r.value.0[j] == (if FirstOccurrence(tickers, v.asset, j) then 1.0 else 0.0)
    ensures v.Relative? && v.asset1 !in tickers ==> r == Err(UnknownAsset(v.asset1))
    ensures v.Relative? && v.asset1 in tickers && v.asset2 !in tickers ==> r == Err(UnknownAsset(v.asset2))
    ensures v.Relative? && v.asset1 in tickers && v.asset2 in tickers ==>
      && r.Ok?
      && r.value.1 == v.difference
      && forall j :: 0 <= j < |tickers| ==>
           r.value.0[j] == (if FirstOccurrence(tickers, v.asset2, j) then -1.0
                            else if FirstOccurrence(tickers, v.asset1, j) then 1.0
                            else 0.0)
    ensures v.OtherType? ==>
      r.Ok? && r.value.1 == 0.0 && forall j :: 0 <= j < |tickers| ==> r.value.0[j] == 0.0
  {
    var n := |tickers|;
    match v
    case Absolute(a, ret) =>
      (match IndexOf(tickers, a)
       case None => Err(UnknownAsset(a))
       case Some(k) => Ok((Zeros(n)[k := 1.0], ret)))
    case Relative(a1, a2, d) =>
      (match IndexOf(tickers, a1)
       case None => Err(UnknownAsset(a1))
       case Some(k1) =>
         match IndexOf(tickers, a2)
         case None => Err(UnknownAsset(a2))
         case Some(k2) => Ok((Zeros(n)[k1 := 1.0][k2 := -1.0], d)))
    case OtherType(_) => Ok((Zeros(n), 0.0))
  }

  /**
   * All views as (P, Q): row i of P and entry i of Q encode view i alone, and the
   * first view that names an unknown ticker decides the error.
   */
  function EncodeViews(tickers: seq<string>, views: seq<View>): (r: Result<(Matrix, seq<real>), Error>)
    ensures r.Ok? ==> IsMatrix(r.value.0, |views|, |tickers|) && |r.value.1| == |views|
    decreases |views|
  {
    if views == [] then Ok(([], []))
    else
      var last := |views| - 1;
      match EncodeViews(tickers, views[..last])
      case Err(e) => Err(e)
      case Ok((p, q)) =>
        match EncodeView(tickers, views[last])
        case Err(e) => Err(e)
        case Ok((row, value)) => Ok((p + [row], q + [value]))
  }

  /** Row i of P and entry i of Q are the encoding of view i alone. */
  lemma {:induction false} EncodeViewsRow(tickers: seq<string>, views: seq<View>, i: nat)
    requires EncodeViews(tickers, views).Ok? && i < |views|
    ensures EncodeView(tickers, views[i]) ==
      Ok((EncodeViews(tickers, views).value.0[i], EncodeViews(tickers, views).value.1[i]))
  {
    var last := |views| - 1;
    if i < last {
      assert views[..last][i] == views[i];
      EncodeViewsRow(tickers, views[..last], i);
    }
  }

  /** The views encode exactly when every single view does. */
  lemma {:induction false} EncodeViewsSucceeds(tickers: seq<string>, views: seq<View>)
    ensures EncodeViews(tickers, views).Ok? <==> forall i :: 0 <= i < |views| ==> EncodeView(tickers, views[i]).Ok?
  {
    if views != [] {
      var last := |views| - 1;
      EncodeViewsSucceeds(tickers, views[..last]);
      assert forall i :: 0 <= i < last ==> views[..last][i] == views[i];
    }
  }

  /** Once a prefix of the views fails, the whole list fails with the same error. */
  lemma {:induction false} EncodeViewsPrefixError(tickers: seq<string>, views: seq<View>, j: nat)
    requires j <= |views| && EncodeViews(tickers, views[..j]).Err?
    ensures EncodeViews(tickers, views) == EncodeViews(tickers, views[..j])
    decreases |views| - j
  {
    if j < |views| {
      var last := |views| - 1;
      assert views[..last][..j] == views[..j];
      EncodeViewsPrefixError(tickers, views[..last], j);
    } else {
      assert views[..j] == views;
    }
  }

  /** The error reported is the one of the first failing view. */
  lemma {:induction false} EncodeViewsFirstError(tickers: seq<string>, views: seq<View>, i: nat)
    requires i < |views| && EncodeView(tickers, views[i]).Err?
    requires forall j :: 0 <= j < i ==> EncodeView(tickers, views[j]).Ok?
    ensures EncodeViews(tickers, views) == Err(EncodeView(tickers, views[i]).error)
  {
    var pre := views[..i];
    assert forall j :: 0 <= j < |pre| ==> EncodeView(tickers, pre[j]).Ok?;
    EncodeViewsSucceeds(tickers, pre);
    assert views[..i + 1][..i] == pre;
    assert views[..i + 1][i] == views[i];
    EncodeViewsPrefixError(tickers, views, i + 1);
  }

  /** The variance a view row picks out of asset variances `variances`: sum of P[i][j]^2 * variances[j]. */
  function ViewVariance(row: seq<real>, variances: seq<real>): real
    requires |row| == |variances|
  {
    Dot(variances, Squares(row))
  }

  /** `np.dot(np.dot(P, np.diag(np.diag(Sigma))), P.T)`: the views' covariance under uncorrelated assets. */
  function ViewCovariance(p: Matrix, sigma: Matrix): (m: Matrix)
    requires IsMatrix(sigma, |sigma|, |sigma|) && IsMatrix(p, |p|, |sigma|)
    ensures IsMatrix(m, |p|, |p|)
  {
    var n := |sigma|;
    MatMul(MatMul(p, DiagMatrix(Diagonal(sigma)), n), Transpose(p, n), |p|)
  }

  /** Each diagonal entry of the views' covariance is the variance its view row picks out. */
  lemma ViewCovarianceDiagonal(p: Matrix, sigma: Matrix, i: nat)
    requires IsMatrix(sigma, |sigma|, |sigma|) && IsMatrix(p, |p|, |sigma|) && i < |p|
    ensures ViewCovariance(p, sigma)[i][i] == ViewVariance(p[i], Diagonal(sigma))
  {
    var n := |sigma|;
    var variances := Diagonal(sigma);
    var pd := MatMul(p, DiagMatrix(variances), n);
    ProductWithDiagonal(p, variances, i);
    var col := Column(Transpose(p, n), i);
    ColumnOfTranspose(p, n, i);
    var sq := Squares(p[i]);
    forall j | 0 <= j < n
      ensures pd[i][j] * col[j] == variances[j] * sq[j]
    {
      calc {
        pd[i][j] * col[j];
        (p[i][j] * variances[j]) * p[i][j];
        variances[j] * (p[i][j] * p[i][j]);
      }
    }
    DotPointwise(pd[i], col, variances, sq);
  }

  /** `np.diag(np.diag(ViewCovariance * tau))`: only the scaled diagonal is kept. */
  function OmegaMatrix(p: Matrix, sigma: Matrix, tau: real): (omega: Matrix)
    requires IsMatrix(sigma, |sigma|, |sigma|) && IsMatrix(p, |p|, |sigma|)
    ensures IsMatrix(omega, |p|, |p|)
    ensures forall i, j :: 0 <= i < |p| && 0 <= j < |p| && i != j ==> omega[i][j] == 0.0
    ensures forall i :: 0 <= i < |p| ==> omega[i][i] == ViewCovariance(p, sigma)[i][i] * tau
  {
    DiagMatrix(Diagonal(Scale(ViewCovariance(p, sigma), tau)))
  }

  /** Each diagonal entry of Omega is tau times the variance its view row picks out. */
  lemma OmegaDiagonal(p: Matrix, sigma: Matrix, tau: real, i: nat)
    requires IsMatrix(sigma, |sigma|, |sigma|) && IsMatrix(p, |p|, |sigma|) && i < |p|
    ensures OmegaMatrix(p, sigma, tau)[i][i] == tau * ViewVariance(p[i], Diagonal(sigma))
  {
    ViewCovarianceDiagonal(p, sigma, i);
  }

  /** The row of an absolute view picks the variance of its asset. */
  lemma AbsoluteRowVariance(tickers: seq<string>, v: View, variances: seq<real>, k: nat)
    requires v.Absolute? && |variances| == |tickers| && FirstOccurrence(tickers, v.asset, k)
    ensures EncodeView(tickers, v).Ok?
    ensures ViewVariance(EncodeView(tickers, v).value.0, variances) == variances[k]
  {
    var row := EncodeView(tickers, v).value.0;
    DotOfSingle(variances, Squares(row), k);
  }

  /** The row of a relative view picks the variances of both assets, or of the one asset it names twice. */
  lemma RelativeRowVariance(tickers: seq<string>, v: View, variances: seq<real>, k1: nat, k2: nat)
    requires v.Relative? && |variances| == |tickers|
    requires FirstOccurrence(tickers, v.asset1, k1) && FirstOccurrence(tickers, v.asset2, k2)
    ensures EncodeView(tickers, v).Ok?
    ensures ViewVariance(EncodeView(tickers, v).value.0, variances) ==
      if k1 == k2 then variances[k1] else variances[k1] + variances[k2]
  {
    var row := EncodeView(tickers, v).value.0;
    var sq := Squares(row);
    if k1 == k2 {
      DotOfSingle(variances, sq, k1);
    } else {
      DotOfPair(variances, sq, k1, k2);
    }
  }

  lemma OmegaEntry(p: Matrix, sigma: Matrix, tau: real, i: nat, variance: real)
    requires IsMatrix(sigma, |sigma|, |sigma|) && IsMatrix(p, |p|, |sigma|) && i < |p|
    requires ViewVariance(p[i], Diagonal(sigma)) == variance
    ensures OmegaMatrix(p, sigma, tau)[i][i] == tau * variance
  {
    OmegaDiagonal(p, sigma, tau, i);
  }

  /** An absolute view on the asset at position k gets uncertainty tau * Sigma[k][k]. */
  lemma OmegaOfAbsoluteView(tickers: seq<string>, sigma: Matrix, p: Matrix, tau: real, i: nat, v: View, k: nat)
    requires IsMatrix(sigma, |sigma|, |sigma|) && |tickers| == |sigma|
    requires IsMatrix(p, |p|, |sigma|) && i < |p|
    requires v.Absolute? && FirstOccurrence(tickers, v.asset, k)
    requires EncodeView(tickers, v).Ok? && p[i] == EncodeView(tickers, v).value.0
    ensures OmegaMatrix(p, sigma, tau)[i][i] == tau * sigma[k][k]
  {
    AbsoluteRowVariance(tickers, v, Diagonal(sigma), k);
    OmegaEntry(p, sigma, tau, i, sigma[k][k]);
  }

  /**
   * A relative view between the assets at positions k1 and k2 gets uncertainty
   * tau * (Sigma[k1][k1] + Sigma[k2][k2]); relating an asset to itself gives tau * Sigma[k1][k1].
   */
  lemma OmegaOfRelativeView(tickers: seq<string>, sigma: Matrix, p: Matrix, tau: real, i: nat,
                            v: View, k1: nat, k2: nat)
    requires IsMatrix(sigma, |sigma|, |sigma|) && |tickers| == |sigma|
    requires IsMatrix(p, |p|, |sigma|) && i < |p|
    requires v.Relative? && FirstOccurrence(tickers, v.asset1, k1) && FirstOccurrence(tickers, v.asset2, k2)
    requires EncodeView(tickers, v).Ok? && p[i] == EncodeView(tickers, v).value.0
    ensures OmegaMatrix(p, sigma, tau)[i][i] ==
      if k1 == k2 then tau * sigma[k1][k1] else tau * (sigma[k1][k1] + sigma[k2][k2])
  {
    RelativeRowVariance(tickers, v, Diagonal(sigma), k1, k2);
    OmegaEntry(p, sigma, tau, i, if k1 == k2 then sigma[k1][k1] else sigma[k1][k1] + sigma[k2][k2]);
  }

  /** A view of any other type carries no uncertainty. */
  lemma OmegaOfOtherView(tickers: seq<string>, sigma: Matrix, p: Matrix, tau: real, i: nat, v: View)
    requires IsMatrix(sigma, |sigma|, |sigma|) && |tickers| == |sigma|
    requires IsMatrix(p, |p|, |sigma|) && i < |p|
    requires v.OtherType? && EncodeView(tickers, v).Ok? && p[i] == EncodeView(tickers, v).value.0
    ensures OmegaMatrix(p, sigma, tau)[i][i] == 0.0
  {
    DotOfZero(Diagonal(sigma), Squares(p[i]));
    OmegaEntry(p, sigma, tau, i, 0.0);
  }

  /**
   * With non-negative asset variances, every view's uncertainty is non-negative and
   * grows with tau: a smaller tau expresses more confidence in the views.
   */
  lemma OmegaMonotoneInTau(p: Matrix, sigma: Matrix, tau1: real, tau2: real, i: nat)
    requires IsMatrix(sigma, |sigma|, |sigma|) && IsMatrix(p, |p|, |sigma|) && i < |p|
    requires forall j :: 0 <= j < |sigma| ==> sigma[j][j] >= 0.0
    requires 0.0 <= tau1 <= tau2
    ensures 0.0 <= OmegaMatrix(p, sigma, tau1)[i][i] <= OmegaMatrix(p, sigma, tau2)[i][i]
  {
    var v := ViewVariance(p[i], Diagonal(sigma));
    assert v >= 0.0 by {
      DotNonNegative(Diagonal(sigma), Squares(p[i]));
    }
    OmegaEntry(p, sigma, tau1, i, v);
    OmegaEntry(p, sigma, tau2, i, v);
    assert 0.0 <= tau1 * v <= tau2 * v;
  }

  /** The contents of a two-dimensional array as rows. */
  function MatrixOf(a: array2<real>): (m: Matrix)
    reads a
    ensures IsMatrix(m, a.Length0, a.Length1)
    ensures forall i, j :: 0 <= i < a.Length0 && 0 <= j < a.Length1 ==> m[i][j] == a[i, j]
  {
    seq(a.Length0, i requires 0 <= i < a.Length0 reads a =>
      seq(a.Length1, j requires 0 <= j < a.Length1 reads a => a[i, j]))
  }

  /**
   * One step of the encoding loop: writes view `v` into the zero row `i` of `p` and
   * entry `i` of `q`, touching no other row, or reports the unknown ticker.
   */
  method EncodeViewInto(tickers: seq<string>, v: View, p: array2<real>, q: array<real>, i: nat)
    returns (err: Option<Error>)
    requires i < p.Length0 == q.Length && p.Length1 == |tickers|
    requires forall c :: 0 <= c < p.Length1 ==> p[i, c] == 0.0
    requires q[i] == 0.0
    modifies p, q
    ensures err.Some? <==> EncodeView(tickers, v).Err?
    ensures err.Some? ==> EncodeView(tickers, v) == Err(err.value)
    ensures err.None? ==>
      && (forall c :: 0 <= c < p.Length1 ==> p[i, c] == EncodeView(tickers, v).value.0[c])
      && q[i] == EncodeView(tickers, v).value.1
    ensures forall r, c :: 0 <= r < p.Length0 && r != i && 0 <= c < p.Length1 ==> p[r, c] == old(p[r, c])
    ensures forall r :: 0 <= r < q.Length && r != i ==> q[r] == old(q[r])
  {
    match v {
      case Absolute(a, ret) =>
        var idx := IndexOf(tickers, a);
        if idx.None? {
          return Some(UnknownAsset(a));
        }
        p[i, idx.value] := 1.0;
        q[i] := ret;
      case Relative(a1, a2, d) =>
        var idx1 := IndexOf(tickers, a1);
        if idx1.None? {
          return Some(UnknownAsset(a1));
        }
        var idx2 := IndexOf(tickers, a2);
        if idx2.None? {
          return Some(UnknownAsset(a2));
        }
        p[i, idx1.value] := 1.0;
        p[i, idx2.value] := -1.0;
        q[i] := d;
      case OtherType(_) =>
    }
    err := None;
  }

  /**
   * The optimizer object. `P`, `Q` and `omega` start unset and are filled by the
   * construction steps; Sigma, the prior and the tickers are fixed when it is made.
   */
  class BlackLitterman {
    const tickers: seq<string>
    const sigma: Matrix
    const prior: map<string, Num>
    const totalPortfolioValue: real
    var P: array2?<real>
    var Q: array?<real>
    var omega: array2?<real>

    /** Sigma is a covariance estimate, hence square. */
    predicate Valid() {
      IsMatrix(sigma, |sigma|, |sigma|)
    }

    /** The field assignments that precede the view handling of the initializer. */
    constructor Init(tickers: seq<string>, sigma: Matrix, prior: map<string, Num>,
                     totalPortfolioValue: real := 10000.0)
      requires IsMatrix(sigma, |sigma|, |sigma|)
      ensures Valid()
      ensures this.tickers == tickers && this.sigma == sigma && this.prior == prior
      ensures this.totalPortfolioValue == totalPortfolioValue
      ensures P == null && Q == null && omega == null
    {
      this.tickers := tickers;
      this.sigma := sigma;
      this.prior := prior;
      this.totalPortfolioValue := totalPortfolioValue;
      P, Q, omega := null, null, null;
    }

    /** Zero-filled P and Q, filled in view by view; an unknown ticker aborts. */
    method UserInputToPQ(views: seq<View>) returns (r: Result<(array2<real>, array<real>), Error>)
      ensures r.Err? ==> EncodeViews(tickers, views) == Err(r.error)
      ensures r.Ok? ==>
        && fresh(r.value.0) && fresh(r.value.1)
        && r.value.0.Length0 == |views| && r.value.0.Length1 == |tickers| && r.value.1.Length == |views|
        && EncodeViews(tickers, views) == Ok((MatrixOf(r.value.0), r.value.1[..]))
    {
      var k, n := |views|, |tickers|;
      var p := new real[k, n]((_, _) => 0.0);
      var q := new real[k](_ => 0.0);
      ghost var rows: Matrix := [];
      ghost var values: seq<real> := [];
      var i := 0;
      while i < k
        invariant 0 <= i <= k
        invariant EncodeViews(tickers, views[..i]) == Ok((rows, values))
        invariant forall r, c :: 0 <= r < i && 0 <= c < n ==> p[r, c] == rows[r][c]
        invariant forall r, c :: i <= r < k && 0 <= c < n ==> p[r, c] == 0.0
        invariant forall r :: 0 <= r < i ==> q[r] == values[r]
        invariant forall r :: i <= r < k ==> q[r] == 0.0
      {
        assert views[..i + 1][..i] == views[..i];
        var err := EncodeViewInto(tickers, views[i], p, q, i);
        if err.Some? {
          EncodeViewsPrefixError(tickers, views, i + 1);
          return Err(err.value);
        }
        var row := EncodeView(tickers, views[i]).value;
        rows, values := rows + [row.0], values + [row.1];
        i := i + 1;
      }
      assert views[..k] == views;
      forall r | 0 <= r < k
        ensures MatrixOf(p)[r] == rows[r]
      {
        assert forall c :: 0 <= c < n ==> MatrixOf(p)[r][c] == rows[r][c];
      }
      assert MatrixOf(p) == rows;
      assert q[..] == values;
      r := Ok((p, q));
    }

    /** Omega from the current P and the variances on the diagonal of Sigma, scaled by tau. */
    method SetOmegaProportionalToPrior(tau: real := 0.05) returns (r: Result<(), Error>)
      requires Valid()
      modifies this`omega
      ensures P == null ==> r == Err(PickingMatrixNotSet)
      ensures P != null && P.Length1 != |sigma| ==> r == Err(ShapeMismatch)
      ensures r.Err? ==> omega == old(omega)
      ensures P != null && P.Length1 == |sigma| ==>
        r == Ok(()) && omega != null && fresh(omega) &&
        MatrixOf(omega) == OmegaMatrix(MatrixOf(P), sigma, tau)
    {
      if P == null {
        return Err(PickingMatrixNotSet);
      }
      if P.Length1 != |sigma| {
        return Err(ShapeMismatch);
      }
      var k := P.Length0;
      var om := OmegaMatrix(MatrixOf(P), sigma, tau);
      var a := new real[k, k]((i, j) requires 0 <= i < k && 0 <= j < k => om[i][j]);
      forall i | 0 <= i < k
        ensures MatrixOf(a)[i] == om[i]
      {
        assert forall j :: 0 <= j < k ==> MatrixOf(a)[i][j] == om[i][j];
      }
      assert MatrixOf(a) == om;
      omega := a;
      r := Ok(());
    }

    /**
     * The initializer: fields, then P and Q from the views, then Omega; the setter's
     * missing return value is stored back into `omega`, leaving it unset.
     */
    static method New(tickers: seq<string>, sigma: Matrix, prior: map<string, Num>, views: seq<View>,
                      omegaTau: real := 0.05, totalPortfolioValue: real := 10000.0)
      returns (r: Result<BlackLitterman, Error>)
      requires IsMatrix(sigma, |sigma|, |sigma|)
      ensures r.Err? <==> EncodeViews(tickers, views).Err? || |tickers| != |sigma|
      ensures EncodeViews(tickers, views).Err? ==> r == Err(EncodeViews(tickers, views).error)
      ensures EncodeViews(tickers, views).Ok? && |tickers| != |sigma| ==> r == Err(ShapeMismatch)
      ensures r.Ok? ==>
        var b := r.value;
        fresh(b) && b.Valid() && b.tickers == tickers && b.sigma == sigma && b.prior == prior &&
        b.totalPortfolioValue == totalPortfolioValue &&
        b.P != null && b.Q != null && fresh(b.P) && fresh(b.Q) &&
        EncodeViews(tickers, views) == Ok((MatrixOf(b.P), b.Q[..])) &&
        b.omega == null
    {
      var b := new BlackLitterman.Init(tickers, sigma, prior, totalPortfolioValue);
      var pq := b.UserInputToPQ(views);
      if pq.Err? {
        return Err(pq.error);
      }
      b.P, b.Q := pq.value.0, pq.value.1;
      var omegaSet := b.SetOmegaProportionalToPrior(omegaTau);
      if omegaSet.Err? {
        return Err(omegaSet.error);
      }
      b.omega := null;
      r := Ok(b);
    }

    /**
     * The posterior optimisation, given as `solve` over (Sigma, prior, P, Q, Omega);
     * it is reached exactly when P and Q are set.
     */
    method OptimizeWithBlackLitterman<W>(solve: (Matrix, map<string, Num>, Matrix, seq<real>, Option<Matrix>) -> W)
      returns (r: Result<W, Error>)
      ensures r.Err? <==> P == null || Q == null
      ensures r.Err? ==> r.error == ViewsNotSet
      ensures r.Ok? ==>
        && P != null && Q != null
        && r.value == solve(sigma, prior, MatrixOf(P), Q[..], if omega == null then None else Some(MatrixOf(omega)))
    {
      if P == null || Q == null {
        return Err(ViewsNotSet);
      }
      var om := if omega == null then None else Some(MatrixOf(omega));
      r := Ok(solve(sigma, prior, MatrixOf(P), Q[..], om));
    }
  }

  /**
   * Construction followed by optimisation: whenever the object is built, the solver
   * is reached, with the encoded views and with no Omega.
   */
  method BuildAndOptimize<W>(tickers: seq<string>, sigma: Matrix, prior: map<string, Num>, views: seq<View>,
                             omegaTau: real, solve: (Matrix, map<string, Num>, Matrix, seq<real>, Option<Matrix>) -> W)
    returns (r: Result<W, Error>)
    requires IsMatrix(sigma, |sigma|, |sigma|)
    ensures r.Ok? <==> EncodeViews(tickers, views).Ok? && |tickers| == |sigma|
    ensures r.Ok? ==>
      var pq := EncodeViews(tickers, views).value;
      r.value == solve(sigma, prior, pq.0, pq.1, None)
  {
    var b := BlackLitterman.New(tickers, sigma, prior, views, omegaTau);
    if b.Err? {
      return Err(b.error);
    }
    r := b.value.OptimizeWithBlackLitterman(solve);
  }
}
