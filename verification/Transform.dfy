/** The reference-frame transforms of transform.c, which the VESC code writes inline. */
module Transform {

  datatype AB = AB(alpha: real, beta: real)

  datatype QD = QD(d: real, q: real)

  /** `CLARKE_Calc` on two phase currents; `s` stands for the square root of 3. */
  function Clarke(u: real, v: real, s: real): AB
    requires s > 0.0
  {
    AB(u, (1.0 / s) * u + (2.0 / s) * v)
  }

  function ParkD(alpha: real, beta: real, sn: real, cs: real): real { cs * alpha + sn * beta }

  function ParkQ(alpha: real, beta: real, sn: real, cs: real): real { cs * beta - sn * alpha }

  function IparkAlpha(d: real, q: real, sn: real, cs: real): real { cs * d - sn * q }

  function IparkBeta(d: real, q: real, sn: real, cs: real): real { cs * q + sn * d }

  /** `PARK_Calc`: from the stator frame to the rotor frame. */
  function Park(i: AB, sn: real, cs: real): QD {
    QD(ParkD(i.alpha, i.beta, sn, cs), ParkQ(i.alpha, i.beta, sn, cs))
  }

  /** `IPARK_Calc`: the way back. */
  function Ipark(u: QD, sn: real, cs: real): AB {
    AB(IparkAlpha(u.d, u.q, sn, cs), IparkBeta(u.d, u.q, sn, cs))
  }

  /** On the unit circle the two transforms undo each other. */
  lemma ParkIpark(u: QD, sn: real, cs: real)
    requires sn * sn + cs * cs == 1.0
    ensures Park(Ipark(u, sn, cs), sn, cs) == u
  {
    ParkIparkAxis(u.d, u.q, sn, cs);
    ParkIparkAxis(u.q, -u.d, sn, cs);
    assert Park(Ipark(u, sn, cs), sn, cs).d == u.d * (sn * sn + cs * cs);
    assert Park(Ipark(u, sn, cs), sn, cs).q == u.q * (sn * sn + cs * cs);
  }

  lemma ParkIparkAxis(d: real, q: real, sn: real, cs: real)
    ensures cs * (cs * d - sn * q) + sn * (cs * q + sn * d) == d * (sn * sn + cs * cs)
  {
  }

  /** For balanced currents the Clarke transform is the amplitude-invariant one: the third phase
      is minus the sum of the other two, and phase V comes back from the two components. */
  lemma ClarkeInverts(u: real, v: real, s: real)
    requires s > 0.0 && s * s == 3.0
    ensures var i := Clarke(u, v, s); i.alpha == u && (s * i.beta - i.alpha) / 2.0 == v
  {
    assert s * (1.0 / s) == 1.0 && s * (2.0 / s) == 2.0;
    assert s * ((1.0 / s) * u + (2.0 / s) * v) == (s * (1.0 / s)) * u + (s * (2.0 / s)) * v;
  }

  /** Where the axes lie: the d axis along the angle, the q axis a quarter turn ahead, and both
      transforms are linear in the two components. */
  lemma Axes(u: QD, i: AB, sn: real, cs: real)
    ensures Ipark(QD(1.0, 0.0), sn, cs) == AB(cs, sn) && Ipark(QD(0.0, 1.0), sn, cs) == AB(-sn, cs)
    ensures var d, q := Ipark(QD(1.0, 0.0), sn, cs), Ipark(QD(0.0, 1.0), sn, cs);
      && Ipark(u, sn, cs) == AB(u.d * d.alpha + u.q * q.alpha, u.d * d.beta + u.q * q.beta)
      && Park(i, sn, cs) == QD(i.alpha * d.alpha + i.beta * d.beta, i.alpha * q.alpha + i.beta * q.beta)
  {
  }

  /** Back into the stator frame, on the unit circle. */
  lemma IparkPark(i: AB, sn: real, cs: real)
    requires sn * sn + cs * cs == 1.0
    ensures Ipark(Park(i, sn, cs), sn, cs) == i
  {
    ParkIparkAxis(i.alpha, -i.beta, sn, cs);
    assert Ipark(Park(i, sn, cs), sn, cs).alpha == i.alpha * (sn * sn + cs * cs);
    assert Ipark(Park(i, sn, cs), sn, cs).beta == i.beta * (sn * sn + cs * cs);
  }
}
