# Vector2D and VectorMath in Dafny

This project models the exact linear-algebra layer of a small Java 2D vector
library. `Vector2D` is a mutable point/vector whose methods overwrite its `x`
and `y` fields in place. The fluent methods return the receiver. `VectorMath`
is a set of static helpers that combine point-like values into new vectors or
scalars and never change their arguments.

**Numbers are exact reals.** Both coordinates are Dafny `real`, not IEEE-754
`double`. Every identity proved here holds exactly over the reals. Some of
them hold for Java `double` only up to rounding: "add then subtract restores the
original", the order-independence of `sum` and "average times n is the sum"
among them.

Layout:

- `vectors.dfy`, module `Vectors`:
  - the point-like value `Pt`, which stands for any `java.awt.geom.Point2D` argument;
  - the squared length `LengthSq` of a point value;
  - the class `Vector2D` with the fields `x` and `y`.
- `vector_math.dfy`, module `VectorMath`:
  - the static helpers as functions on `Pt`, with the fold `SumOf` as the specification of `sum`;
  - `Sum` and `Average` as methods that build a fresh `Vector2D`;
  - the algebraic lemmas.

Modelling decisions:

- **Point arguments.** Each `Point2D` argument is a `Pt` value. A `Vector2D` is
  passed by its coordinates, `v.Loc()`. This loses nothing: every Java method
  reads `p.getX()` and `p.getY()` before it writes the receiver. So even
  a single `v.add(v)` behaves as the value model says, and no helper can change
  its arguments.
- **Static helpers return values.** `VectorMath.subtract` and `VectorMath.scale`
  return a freshly allocated `Vector2D` that nothing else refers to. They are
  modelled as functions that return that vector's coordinates.
  `distanceBetweenSq` becomes `LengthSq(Subtract(p1, p2))`, the value that
  `subtract(p1, p2).getLengthSq()` returns.
- **`sum`.** The Java `for` loop over the varargs array becomes a `for` loop over
  a `seq<Pt>`. It keeps the accumulators `sumX`/`sumY`. Its loop invariant says
  they hold the fold `SumOf` of the prefix seen so far.
- **`average`.** It calls `Sum` and then scales the fresh vector in place with
  `Vector2D.Scale`, as the source does.
- **Empty `average`.** Java evaluates `1.0 / 0` there and yields NaN
  coordinates. The model makes this case the precondition `|ps| > 0`.

## Model

| member | source | states |
|---|---|---|
| `Vectors.Vector2D.constructor` | src/Vector2D.java:24-27 | the no-argument constructor yields the vector (0, 0): `GetX()` and `GetY()` are both 0 |
| `Vectors.Vector2D.FromXY` | src/Vector2D.java:37-40 | the two-argument constructor stores x and y verbatim, as `GetX()`/`GetY()` report them |
| `Vectors.Vector2D.FromPoint` | src/Vector2D.java:49-52 | the copy constructor takes exactly the coordinates of the given point |
| `Vectors.Vector2D.GetX` | src/Vector2D.java:58-60 | returns the stored x coordinate unchanged |
| `Vectors.Vector2D.GetY` | src/Vector2D.java:66-68 | returns the stored y coordinate unchanged |
| `Vectors.LengthSq` | src/Vector2D.java:76-78 | x*x + y*y of a point value is never negative |
| `Vectors.Vector2D.GetLengthSq` | src/Vector2D.java:76-78 | the receiver's squared length is never negative and is 0 for the zero vector |
| `Vectors.LengthSqScaled` | src/Vector2D.java:223-227 | multiplying both coordinates by k multiplies the squared length by k*k |
| `Vectors.Vector2D.SetLocation` | src/Vector2D.java:110-113 | replaces both coordinates with the given ones |
| `Vectors.Vector2D.SetLocationTo` | src/Vector2D.java:122-124 | afterwards the receiver's coordinates equal p's |
| `Vectors.Vector2D.SetX` | src/Vector2D.java:132-134 | x becomes the argument and y is unchanged |
| `Vectors.Vector2D.SetY` | src/Vector2D.java:142-144 | y becomes the argument and x is unchanged |
| `Vectors.Vector2D.AddX` | src/Vector2D.java:146-148 | x grows by d and y is unchanged |
| `Vectors.Vector2D.AddY` | src/Vector2D.java:150-152 | y grows by d and x is unchanged |
| `Vectors.Vector2D.Scale` | src/Vector2D.java:223-227 | both coordinates are multiplied by k, the receiver is returned, and `GetLengthSq()` is multiplied by k*k |
| `Vectors.Vector2D.Add` | src/Vector2D.java:236-240 | adds p's coordinates to the receiver's and returns the receiver |
| `Vectors.Vector2D.Subtract` | src/Vector2D.java:249-253 | subtracts p's coordinates from the receiver's and returns the receiver |
| `Vectors.AddThenSubtract` | src/Vector2D.java:236-253 | on a fresh copy of p0, so that p is not the receiver, `add(p)` followed by `subtract(p)` on the returned receiver restores p0's coordinates exactly |
| `VectorMath.Dot` | src/VectorMath.java:6-8 | `dot(p, p)` is p's squared length, the value `getLengthSq` returns |
| `VectorMath.DotSymmetric` | src/VectorMath.java:6-8 | `dot(p1, p2) == dot(p2, p1)` |
| `VectorMath.SumOfEmpty` | src/VectorMath.java:10-20 | the sum of no points is (0, 0) |
| `VectorMath.SumOfAppend` | src/VectorMath.java:14-17 | appending a point adds exactly its coordinates to the sum, the step the loop body takes |
| `VectorMath.Sum` | src/VectorMath.java:10-20 | returns a fresh vector holding the componentwise fold `SumOf` of all the points; the loop invariant keeps `sumX`/`sumY` equal to the sum of the prefix seen so far |
| `VectorMath.SumOfConcat` | src/VectorMath.java:10-20 | the sum of a concatenation is the sum of the two sums |
| `VectorMath.SumOfRemoveAt` | src/VectorMath.java:10-20 | the sum of a sequence is the point at index j plus the sum of the rest |
| `VectorMath.SumOfPermutation` | src/VectorMath.java:10-20 | the sum does not depend on the order of the points: equal multisets give equal sums |
| `VectorMath.SumExample` | src/VectorMath.java:10-20 | sum of (1,2) and (3,4) is (4,6) |
| `VectorMath.Subtract` | src/VectorMath.java:22-27 | the new vector p1 - p2 is undone by adding p2 back: `Plus(subtract(p1, p2), p2) == p1` |
| `VectorMath.SubtractOfCopy` | src/VectorMath.java:22-27 | static `subtract(p1, p2)` gives the coordinates that `Vector2D.subtract(p2)` leaves in a copy of p1 |
| `VectorMath.Scale` | src/VectorMath.java:29-34 | the new vector p * k has k*k times p's squared length |
| `VectorMath.ScaleOfCopy` | src/VectorMath.java:29-34 | static `scale(p, k)` gives the coordinates that `Vector2D.scale(k)` leaves in a copy of p |
| `VectorMath.DistanceBetweenSq` | src/VectorMath.java:42-46 | the squared distance is never negative and is 0 when the two points are equal |
| `VectorMath.DistanceBetweenSqSymmetric` | src/VectorMath.java:42-46 | the squared distance is symmetric in its arguments and equals `dot(d, d)` for the difference d = `subtract(p1, p2)` |
| `VectorMath.Average` | src/VectorMath.java:63-68 | for a non-empty sequence, returns a fresh vector equal to the sum scaled by 1/n |
| `VectorMath.AverageTimesCount` | src/VectorMath.java:63-68 | the average scaled back by n is the sum |
| `VectorMath.AverageOfPermutation` | src/VectorMath.java:63-68 | the average does not depend on the order of the points |
| `VectorMath.AverageExample` | src/VectorMath.java:63-68 | the average of (1,2) and (3,4) is (2,3) |

`VectorMath.MultisetRemoveAt` is a proof helper of `SumOfPermutation` and models
nothing in the source. It states a general fact about sequences: removing index
j removes one occurrence of that element from the multiset.

## Left out

- `getLength`, `getDirection`, `normalize`, `setLength` and `rotate`
  (src/Vector2D.java:88-100, 172-214) are left out. They need a square root,
  `atan2`, `cos` or `sin`, and those have no exact counterpart over the reals in
  Dafny.
- `distanceBetween`, `relativeAngle` and `normalise` (src/VectorMath.java:36-40,
  48-61) are left out for the same reason. `normalise` also calls
  `Point2D.distance`, which is not part of this model.
- `PI2` (src/VectorMath.java:4) is left out. It is a `double` approximation of 2π meant for angle arithmetic. Nothing in these two files uses it, and it has no exact value over the reals.
- `setRandom` (src/Vector2D.java:162-164) is left out. It draws from the global `Math.random()`, a non-deterministic source.
- `drawVector` (src/Vector2D.java:264-267) is left out. It is I/O through the external `FXGraphics2D` drawing surface.
- `toString` (src/Vector2D.java:276-278) is left out. It depends on Java's `double`-to-string formatting.
- IEEE-754 behaviour is left out: rounding, overflow, NaN and Infinity. In
  particular the NaN that `average` of no points yields becomes the
  precondition `|ps| > 0` of `Average` and `AverageOf`.
- The `extends Point2D` and `implements Serializable` plumbing is left out. Point arguments are plain `Pt` values.
- Identity and aliasing of `Vector2D` arguments are not modelled. Arguments are
  taken by value. As explained above, this matches the source for a single
  call, which reads its arguments before it writes. Identities about two calls,
  such as `AddThenSubtract`, assume p is not the receiver: in Java `v.add(v)`
  doubles v and so changes p too, and a following `v.subtract(v)` leaves (0, 0).
- Vectors.LengthSq: its contract does not state that the squared length is 0 only for the zero vector. This holds over the reals, but the solver's nonlinear real arithmetic does not reliably prove it.
- Vectors.Vector2D.GetLengthSq: states that a zero vector has squared length 0, but not the converse, for the same reason.
- VectorMath.DistanceBetweenSq: states that equal points are at squared distance 0, but not the converse, for the same reason.
- Null arguments are left out. Java throws `NullPointerException` for a null
  `Point2D`, a null varargs array or a null element passed to `sum`/`average`,
  and for `add(null)`, `subtract(null)` and `setLocation(null)`. A `Pt` value
  cannot be null, so this error path does not exist in the model.
