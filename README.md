# Kig object engine, modelled in Dafny

Kig is an interactive geometry program: a figure is a graph of objects, each computed by an
object type from its parents. This project models, and proves properties of, the exact parts of
that engine:

- **Dependency-graph ordering** (`CalcPaths`, `SidePaths`). Kig computes, from the parent/child
  graph of a figure, the order in which objects must be recalculated:
  - `calcPath(os)`, by a depth-first post-order;
  - `calcPath(from, to)`, the nodes between two objects;
  - ancestor and descendant closures, and `isChild`;
  - `sideOfTreePath`/`visit`/`addNonCache`, the objects a path depends on besides its start.

  Nodes are `nat` ids with `children` and `parents` maps. Acyclicity is witnessed by a ghost rank
  map that strictly increases along every parent-to-child edge.
- **The locus sampler** (`Loci`). A `Locus` traces a moving point while a constrained point runs
  over its curve. The sampler takes the parameters 0 and 1 first and then bisects recursively,
  with a shared sample counter, a forced depth of 20 and a distance test. It saves and restores
  the constrained point's parameter around the sampling.
- **Object types with decision logic** (`ArcTypes`, `TransformTypes`, `Polygons`, `Objects`):
  - the arc through three points, with its angle-span choice and collinear fallback;
  - the arc from centre, point and angle;
  - the conic arc;
  - the nine transformation types, with their argument policy;
  - the polygon's transform, containment and bounding rectangle.
- **Geometry primitives** (`Rects`, `Common`, `BogusImps`): the `Rect` class with its setters,
  normalisation and `setContains`, `kigMin`/`kigMax`, `LineData`, and the payload holders
  `DoubleImp`, `IntImp` and `StringImp`.
- **Import filters** (`KSeg`, `KSegLoad`, `DrGeo`, `GeoGebra`):
  - KSeg: the record decoding of KSeg documents;
  - Dr. Geo: the element-by-element reconstruction of Dr. Geo figures;
  - GeoGebra: the XML-callback state machine that turns GeoGebra tool files into sections of
    input and output objects.
- **Text labels** (`Labels`): the `%n` placeholders of a text label, the split of the label text
  into text and link parts, and the label wizard's finish rule.

The numeric kernels Kig calls but does not define here are parameters of the model:
`atan2`, the circumcentre, vector length, `Transformation::apply`, point-on-segment and
line-in-rectangle tests, conic fitting, and the imp of a calcer. Coordinates are `real`.
Where Kig keeps state in an object (`Rect`, `Locus`, the imp holders, the GeoGebra transformer,
the text-label mode), the model is a class whose methods state the whole new state. The graph
algorithms and the filters' record loops are methods with loops, proved against reference
functions (`DescOf`, `AncOf`, `Side`, `ImportSpec`, `LoadSpec`, `Placeholders`).

## Model

| member | source | states |
|---|---|---|
| Common.KigMin | misc/common.h:203-207 | the result is at most both arguments and is one of them |
| Common.KigMax | misc/common.h:209-213 | the result is at least both arguments and is one of them |
| Common.DefaultLineDataDegenerate | misc/common.h:63-65 | a line has zero direction exactly when its points coincide, and the default line, with both points at the origin, has zero direction |
| Common.Dir | misc/common.h:63 | `dir()` is the vector that carries `a` to `b` |
| Common.DirSwap | misc/common.h:63 | swapping the endpoints negates the direction |
| Common.LengthSwap | misc/common.h:64 | for a symmetric norm, swapping the endpoints keeps `length()` |
| BogusImps.DoubleImp.constructor | objects/bogus_imp.h:65-82 | the holder stores the given double |
| BogusImps.DoubleImp.SetData | objects/bogus_imp.h:73-74 | after `setData(d)`, `data()` is `d`; the payload is the only field |
| BogusImps.IntImp.constructor | objects/bogus_imp.h:84-100 | the holder stores the given int |
| BogusImps.IntImp.SetData | objects/bogus_imp.h:92-93 | after `setData(d)`, `data()` is `d` |
| BogusImps.StringImp.constructor | objects/bogus_imp.h:102-115 | the holder stores the given string |
| BogusImps.StringImp.SetData | objects/bogus_imp.h:110-111 | after `setData(s)`, `data()` is `s` |
| Rects.Rect.FromCorners | misc/rect.cc:38-44 | the rect from two corners ends normalized, spanning min to max of the corners on each axis |
| Rects.Rect.FromSize | misc/rect.cc:46-52 | the rect from a point, width and height ends normalized, spanning the given extent |
| Rects.Rect.FromInts | misc/rect.cc:54-60 | the rect from integer corners ends normalized, spanning them |
| Rects.Rect.Copy | misc/rect.cc:62-68 | the copy is normalized and covers the region of the original |
| Rects.Rect.constructor | misc/rect.cc:70-74 | the default rect is at the origin with zero width and height |
| Rects.CornersCovered | misc/rect.cc:165-220 | the corners built from the bottom-left corner, the width and the height lie in the covered region; on a normalized rect they are contained, and every contained point lies between the bottom-left and the top-right corner |
| Rects.Rect.Center | misc/rect.cc:181-184 | the centre is equidistant from left and right and from bottom and top |
| Rects.Rect.Contains | misc/rect.cc:214-220 | `contains(p)` iff left <= p.x <= right and bottom <= p.y <= top; on a normalized rect this is coverage of the region |
| Rects.Rect.Normalize | misc/rect.cc:130-142 | afterwards width and height are non-negative and the covered region is unchanged |
| Rects.Rect.SetBottomLeft | misc/rect.cc:76-79 | moves the bottom-left corner, keeping width and height |
| Rects.Rect.SetBottomRight | misc/rect.cc:81-84 | afterwards `bottomRight()` is `p`; width and height are kept |
| Rects.Rect.SetTopRight | misc/rect.cc:86-89 | afterwards `topRight()` is `p`; width and height are kept |
| Rects.Rect.SetCenter | misc/rect.cc:91-94 | afterwards `center()` is `p`; width and height are kept |
| Rects.Rect.SetLeft | misc/rect.cc:96-101 | sets the left edge and keeps the right edge, bottom and height |
| Rects.Rect.SetRight | misc/rect.cc:103-106 | sets the right edge and keeps the bottom-left corner and the height |
| Rects.Rect.SetBottom | misc/rect.cc:108-113 | sets the bottom edge and keeps the top edge, left and width |
| Rects.Rect.SetTop | misc/rect.cc:115-118 | sets the top edge and keeps the bottom-left corner and the width |
| Rects.Rect.SetWidth | misc/rect.cc:120-123 | sets the width only |
| Rects.Rect.SetHeight | misc/rect.cc:125-128 | sets the height only |
| Rects.Rect.MoveBy | misc/rect.cc:144-147 | translates the corner and keeps the size; a point is in the old rect iff the point moved by `p` is in the new one |
| Rects.Rect.AddAssign | misc/rect.h:64-68 | `r += p` is `moveBy(p)` |
| Rects.Rect.Scale | misc/rect.cc:149-153 | multiplies width and height by `r`, keeping the bottom-left corner |
| Rects.Rect.MulAssign | misc/rect.h:76-80 | `r *= k` is `scale(k)` |
| Rects.Rect.DivAssign | misc/rect.h:81-85 | `r /= k` is `scale(1/k)`, for `k` non-zero |
| Rects.Rect.SetContains | misc/rect.cc:232-239 | afterwards the rect is normalized, contains `p`, is the least extension to do so, and still contains every point it covered |
| Rects.Rect.NormalizedCopy | misc/rect.cc:241-246 | `normalized()` is a normalized rect covering the same region |
| Rects.IntersectsMeaning | misc/rect.cc:222-230 | for normalized rects, `intersects` is false exactly when the x-intervals or the y-intervals are strictly apart |
| Rects.IntersectsSymmetric | misc/rect.cc:222-230 | for normalized rects, `intersects` is symmetric |
| Rects.CommonPointIntersects | misc/rect.cc:222-230 | two rects that contain a common point intersect |
| Rects.CopyEquals | misc/rect.cc:21-26 | a normalized copy is `==` to the original exactly when the original was normalized |
| Objects.PlaceFrom | objects/transform_types.cc:54 | placing one argument keeps the slot count of the specification |
| Objects.PlaceFromSlots | objects/transform_types.cc:54 | an argument goes only into a free slot whose type it inherits; other slots are unchanged |
| Objects.Parse | objects/transform_types.cc:54 | the parse returns one slot per position of the specification |
| Objects.ParseFilled | objects/transform_types.cc:54 | every filled slot holds one of the arguments, of the type the slot asks for |
| Objects.ParseMissing | objects/transform_types.cc:54 | a slot whose type no argument has stays empty |
| Objects.ParseInOrder | objects/transform_types.cc:54 | arguments already in specification order are placed in order |
| Objects.PlaceSkipsFilled | objects/transform_types.cc:54 | an argument skips filled slots and lands in the first free slot of its type |
| Objects.Filled | objects/transform_types.cc:54 | the number of filled slots is at most the number of slots |
| Objects.FilledNone | objects/transform_types.cc:54 | no slot is filled before parsing |
| Objects.FilledUpdate | objects/transform_types.cc:54 | filling a free slot adds one to the count |
| Objects.PlaceIntoAny | objects/transform_types.cc:54 | with a free trailing any-type slot, every argument is placed somewhere |
| Objects.ParseKeepsAll | objects/transform_types.cc:54 | if the trailing any-type slot stays empty, every argument was placed |
| Objects.TrailingAnyFilled | objects/transform_types.cc:54 | with as many arguments as slots, the trailing any-type slot is filled |
| Objects.FilledBelow | objects/transform_types.cc:54 | a sequence with an empty last slot is not completely filled |
| TransformTypes.Spec | objects/transform_types.cc:30 | every transform's argument specification ends in the object to transform, of any type |
| TransformTypes.Translated | objects/transform_types.cc:51-60 | with an argument count other than 2 the result is Invalid |
| TransformTypes.PointReflected | objects/transform_types.cc:84-93 | with an argument count other than 2 the result is Invalid |
| TransformTypes.LineReflected | objects/transform_types.cc:117-126 | with an argument count other than 2 the result is Invalid |
| TransformTypes.Rotated | objects/transform_types.cc:150-159 | with an argument count other than 3 the result is Invalid |
| TransformTypes.ScaledOverCenter | objects/transform_types.cc:184-193 | with an argument count other than 3 the result is Invalid |
| TransformTypes.ScaledOverLine | objects/transform_types.cc:218-227 | with an argument count other than 3 the result is Invalid |
| TransformTypes.ProjectivelyRotated | objects/transform_types.cc:252-266 | with fewer than 2 arguments the result is Invalid |
| TransformTypes.ShadowCast | objects/transform_types.cc:293-300 | with an argument count other than 3 the result is Invalid |
| TransformTypes.TransformationApplied | objects/transform_types.cc:405-412 | the object is mapped by the transformation found in the parsed arguments |
| TransformTypes.Calc | objects/transform_types.cc:51-412 | every fixed-arity transform type returns Invalid on a wrong argument count |
| TransformTypes.TwoArgParse | objects/transform_types.cc:54 | with two arguments, the one of the asked type is placed first whatever the order |
| TransformTypes.TranslatedSpec | objects/transform_types.cc:51-60 | a vector and an object, in either order, give the object translated by the vector's direction |
| TransformTypes.TranslatedNeedsVector | objects/transform_types.cc:55-57 | without a vector the result is Invalid |
| TransformTypes.PointReflectedSpec | objects/transform_types.cc:84-93 | a point and an object, in either order, give the object reflected in the point |
| TransformTypes.PointReflectedPoints | objects/transform_types.cc:84-93 | with two points the first one is the centre |
| TransformTypes.PointReflectedNeedsPoint | objects/transform_types.cc:88-90 | without a point the result is Invalid |
| TransformTypes.LineReflectedSpec | objects/transform_types.cc:117-126 | a line and an object, in either order, give the object reflected in the line |
| TransformTypes.LineReflectedNeedsLine | objects/transform_types.cc:121-123 | without a line the result is Invalid |
| TransformTypes.RotatedSpec | objects/transform_types.cc:150-159 | centre, angle and object give the object rotated by the angle about the centre |
| TransformTypes.RotatedNeedsCenterAndAngle | objects/transform_types.cc:154-156 | without a centre or without an angle the result is Invalid |
| TransformTypes.ScaledOverCenterSpec | objects/transform_types.cc:184-193 | the ratio of scaling over a centre is the length of the segment argument |
| TransformTypes.ScaledOverLineSpec | objects/transform_types.cc:218-227 | the ratio of scaling over a line is the length of the segment argument |
| TransformTypes.ScalingNeedsSegment | objects/transform_types.cc:188-190 | both scalings are Invalid without a segment |
| TransformTypes.ProjectivelyRotatedDefault | objects/transform_types.cc:252-266 | without an angle, the projective rotation uses the angle 0.1·π/2 about the ray |
| TransformTypes.ProjectivelyRotatedSpec | objects/transform_types.cc:252-266 | with an angle, the projective rotation uses it, about the ray's start and normalized direction |
| TransformTypes.ProjectivelyRotatedNeedsRay | objects/transform_types.cc:256-258 | without a ray the result is Invalid |
| TransformTypes.ShadowCastSpec | objects/transform_types.cc:293-300 | light point, line and object give the object's cast shadow |
| TransformTypes.ShadowCastNeedsPointAndLine | objects/transform_types.cc:297 | without a point or without a line the result is Invalid |
| TransformTypes.TransformationAppliedSpec | objects/transform_types.cc:405-412 | a transformation and an object, in either order, give the object mapped by the transformation |
| ArcTypes.ChooseSpanCovers | objects/arc_type.cc:109-125 | the chosen span lies in [0, 2π], starts at one end point's angle and covers all three angles |
| ArcTypes.ArcBTP | objects/arc_type.cc:75-141 | Invalid without two valid point arguments; an arc's radius is the distance from the first point to its centre; a segment joins the first and last points |
| ArcTypes.ArcBTPCollinear | objects/arc_type.cc:91-101 | for any three points with no circumcentre, the middle one strictly between the others, the result is the segment from the first to the last |
| ArcTypes.ArcBTPNoCenter | objects/arc_type.cc:91-101 | without a circumcentre the result is a segment iff the middle point lies strictly between the others, and Invalid otherwise |
| ArcTypes.ArcBTPThrough | objects/arc_type.cc:103-139 | with a circumcentre the arc is centred there, spans at most 2π, starts at an end point and passes through all three points |
| ArcTypes.TwoPointCenterEquidistant | objects/arc_type.cc:127-137 | the two-point centre is equally far from both points |
| ArcTypes.ArcBTPTwoPoints | objects/arc_type.cc:127-137 | with two points the arc starts at the first and spans twice the half angle, corrected by 2π when that is below −π |
| ArcTypes.ArcBCPA | objects/arc_type.cc:189-203 | Invalid exactly when the arguments fail the check; otherwise the result is an arc centred at the centre, with radius the distance to the point, starting at the bearing of the point from the centre and spanning the given angle |
| ArcTypes.ConicArcBCTP | objects/arc_type.cc:255-322 | Invalid exactly when the arguments fail the check; otherwise the conic through the points, with the span rule on the parameters scaled by 2π and a defaulted third angle |
| ArcTypes.ConicArcCentredOnMiddle | objects/arc_type.cc:296-317 | with the defaulted end angle, the middle point's angle is the middle of the span |
| ArcTypes.ConicArcThrough | objects/arc_type.cc:296-317 | for parameters in [0, 1] the span lies in [0, 2π] and covers all three points |
| Polygons.CopyEqualsOriginal | objects/polygon_imp.cc:160-174 | `copy()` gives a polygon equal to the original, in both directions of `equals` |
| Polygons.EqualsIsIdentity | objects/polygon_imp.cc:170-174 | `equals` holds iff the other imp is a polygon with an identical vertex sequence |
| Polygons.MapAllMeaning | objects/polygon_imp.cc:50-58 | mapping every vertex succeeds iff each vertex maps, and then vertex i maps to entry i |
| Polygons.Transform | objects/polygon_imp.cc:45-58 | the push_back loop computes the polygon transform |
| Polygons.TransformedInvalid | objects/polygon_imp.cc:47-55 | the transform is Invalid iff the transformation is not homothetic or some vertex maps to Invalid |
| Polygons.TransformedVertices | objects/polygon_imp.cc:50-58 | otherwise the result has the same vertex count and vertex i is the image of vertex i |
| Polygons.TransformedFixed | objects/polygon_imp.cc:45-58 | a homothety fixing every vertex gives a polygon equal to the original |
| Polygons.Succ | objects/polygon_imp.cc:66-77 | the next vertex index wraps to 0 exactly after the last vertex |
| Polygons.ScanEdges | objects/polygon_imp.cc:66-96 | the edge loop answers whether some edge, the closing one included, is hit |
| Polygons.Contains | objects/polygon_imp.cc:66-77 | `contains(p)` iff `p` is on some edge i to i+1, the closing edge included |
| Polygons.InRect | objects/polygon_imp.cc:79-96 | `inRect(r)` iff some edge, the closing edge included, lies in the rect |
| Polygons.Rot | objects/polygon_imp.cc:66-77 | a rotated vertex index stays in range |
| Polygons.AnyEdgeRotate | objects/polygon_imp.cc:66-77 | the edge test does not depend on which vertex the polygon starts at |
| Polygons.HullContains | objects/polygon_imp.cc:206-214 | the grown box covers the start box and every vertex |
| Polygons.HullLeast | objects/polygon_imp.cc:206-214 | any box covering the start box and every vertex covers the grown box |
| Polygons.GrowBy | objects/polygon_imp.cc:206-214 | the `setContains` loop grows the rect to the hull of its old region and the vertices |
| Polygons.SurroundingRectAsWritten | objects/polygon_imp.cc:206-214 | as written, the rect is the hull of the vertices and the zero rect at the origin |
| Polygons.SurroundingRectTakesInOrigin | objects/polygon_imp.cc:206-214 | for the triangle (1,1), (2,1), (1,2) the result as written stretches to the origin; the tight box does not |
| Polygons.PointBox | objects/polygon_imp.cc:206-214 | the box of one point contains it and has zero size |
| Polygons.SurroundingRect | objects/polygon_imp.cc:206-214 | the rect is the hull of the vertices, started from the first vertex |
| Polygons.SurroundingRectTight | objects/polygon_imp.cc:206-214 | that rect contains every vertex and lies within any box that does |
| Loci.ExtendsAppend | objects/locus.cpp:111-118 | appending a sample keeps the earlier samples |
| Loci.ExtendsTrans | objects/locus.cpp:120-133 | keeping earlier samples composes over successive recursion steps |
| Loci.Locus.Empty | objects/locus.h:49 | the default locus has no points, no parents and no calc path |
| Loci.Locus.constructor | objects/locus.cpp:242-261 | the calc path is `calcPath(cp, mp)` followed by `mp`, with no duplicates |
| Loci.Locus.StartMove | objects/locus.cpp:225-227 | changes nothing |
| Loci.Locus.MoveTo | objects/locus.cpp:229-231 | changes nothing |
| Loci.Locus.StopMove | objects/locus.cpp:233-235 | changes nothing |
| Loci.Locus.AddPoint | objects/locus.cpp:111-118 | sets the parameter and appends the traced point at it, as a `CPt` with that parameter |
| Loci.Locus.Recurse | objects/locus.cpp:120-133 | advances the counter; adds nothing past the cap or outside the shown rect after depth 20; otherwise first adds the midpoint sample; the total stays at most numberOfSamples + 1 |
| Loci.Locus.Calc | objects/locus.cpp:64-84 | validity is `cp.valid && mp.valid`; an invalid locus or an empty shown rect leaves the samples; otherwise the samples at 0 and 1 come first and there are at most numberOfSamples + 1; the parameter is restored |
| Loci.Locus.GetPoint | objects/locus.cpp:86-104 | the traced point at the parameter, or the origin when invalid; the parameter is restored |
| Loci.Locus.Contains | objects/locus.cpp:50-55 | true iff some sample lies strictly within `fault` of the point |
| Loci.Locus.InRect | objects/locus.cpp:57-62 | true iff some sample lies in the rect |
| CalcPaths.Height | misc/calcpaths.cc:48-71 | a bound on the ranks of the graph, the measure of the depth-first recursion |
| CalcPaths.ReachesRank | misc/calcpaths.cc:73-85 | following children strictly increases the rank |
| CalcPaths.ReachesTrans | misc/calcpaths.cc:73-85 | reachability through children is transitive |
| CalcPaths.ReachesChild | misc/calcpaths.cc:73-85 | a node reaches each of its children |
| CalcPaths.ReachesViaParent | misc/calcpaths.cc:227-245 | a node is reached from each parent's ancestors |
| CalcPaths.Acyclic | misc/calcpaths.cc:48-71 | two nodes that reach each other are equal |
| CalcPaths.PostOrderedAppend | misc/calcpaths.cc:73-85 | appending a node whose descendants are all listed keeps the post-order |
| CalcPaths.SearchedChild | misc/calcpaths.cc:77-84 | after the call on a child, that child is finished |
| CalcPaths.FinishedNode | misc/calcpaths.cc:73-85 | a node is finished once its children are |
| CalcPaths.FewerUnvisited | misc/calcpaths.cc:77-84 | marking a node visited shrinks the set of unvisited nodes |
| CalcPaths.LocalDfs | misc/calcpaths.cc:73-85 | marks `obj` visited before exploring, only appends, keeps the search invariant and ends `all` with `obj` |
| CalcPaths.PostOrderedReach | misc/calcpaths.cc:65-85 | in the post-order a node comes after every node it reaches |
| CalcPaths.PostOrderedIndex | misc/calcpaths.cc:65-85 | in the post-order, if `all[i]` reaches `all[j]` then `j <= i` |
| CalcPaths.CalcPath | misc/calcpaths.cc:48-71 | each element of `os` exactly once, nothing else, and a node before every descendant of it |
| CalcPaths.BranchOrderedConcat | misc/calcpaths.cc:143-158 | joining two branch-ordered lists keeps the branch order |
| CalcPaths.BranchCons | misc/calcpaths.cc:143-158 | the branch of a list splits into the branch of its head and of its tail |
| CalcPaths.BranchOfTo | misc/calcpaths.cc:143-158 | the branch from `to` itself is empty |
| CalcPaths.BranchOfNode | misc/calcpaths.cc:143-158 | the branch of a node that reaches `to` is the node and its children's branches |
| CalcPaths.InBranchOfNode | misc/calcpaths.cc:143-158 | a node in a branch reaches `to` |
| CalcPaths.BranchBelow | misc/calcpaths.cc:143-158 | a branch holds only nodes reached from its starting nodes |
| CalcPaths.BetweenCons | misc/calcpaths.cc:160-176 | the nodes between `from` and `to` split by the first `from` node |
| CalcPaths.AnyReachesCons | misc/calcpaths.cc:143-158 | some node of a list reaches `to` iff the head or some tail node does |
| CalcPaths.ChildrenReach | misc/calcpaths.cc:143-158 | a node other than `to` reaches `to` iff some child does |
| CalcPaths.AddBranch | misc/calcpaths.cc:143-158 | returns whether some node of `o` reaches `to`, and appends exactly the branch of nodes leading there, ordered |
| CalcPaths.BranchTop | misc/calcpaths.cc:160-176 | a branch-ordered list puts ancestors after descendants |
| CalcPaths.Reverse | misc/calcpaths.cc:169-175 | reversal keeps the elements and reverses the positions |
| CalcPaths.CalcPathBetween | misc/calcpaths.cc:160-176 | no duplicates, not `to`, exactly the nodes on a path from `from` down to `to`, and a node before its descendants |
| CalcPaths.DropRepeats | misc/calcpaths.cc:169-175 | keeps the first occurrence of each node, so no duplicates and the same elements |
| CalcPaths.ReachedFirst | misc/calcpaths.cc:169-175 | after dropping repeats, a node comes after every node it reaches |
| CalcPaths.ReverseOrder | misc/calcpaths.cc:169-175 | reversing that list puts every node before its descendants |
| CalcPaths.ChildrenOfAdd | misc/calcpaths.cc:279-298 | the children of a union are the union of the children |
| CalcPaths.ParentsOfNodes | misc/calcpaths.cc:227-245 | the parents of graph nodes are graph nodes |
| CalcPaths.ChildrenOfNodes | misc/calcpaths.cc:279-298 | the children of graph nodes are graph nodes |
| CalcPaths.ParentsOfAdd | misc/calcpaths.cc:227-245 | the parents of a union are the union of the parents |
| CalcPaths.DescOfStep | misc/calcpaths.cc:279-298 | the descendants of a set are the set plus the descendants of its children |
| CalcPaths.DescOfStepAt | misc/calcpaths.cc:279-298 | one round of the loop keeps the descendant closure of what is left |
| CalcPaths.AncOfEmpty | misc/calcpaths.cc:227-245 | the empty set has no ancestors |
| CalcPaths.AncOfContains | misc/calcpaths.cc:227-245 | a set is included in its ancestor closure |
| CalcPaths.RoundUp | misc/calcpaths.cc:227-245 | each round of the parent loop raises the least rank of what is left |
| CalcPaths.AncOfStep | misc/calcpaths.cc:227-245 | the ancestors of a set are the set plus the ancestors of its parents |
| CalcPaths.AncOfStepAt | misc/calcpaths.cc:227-245 | one round of the loop keeps the ancestor closure of what is left |
| CalcPaths.GetAllChildren | misc/calcpaths.cc:279-298 | the result is `objs` together with all their descendants |
| CalcPaths.ParentsOfLevel | misc/calcpaths.cc:227-245 | one round collects the parents of the current level |
| CalcPaths.ParentsRound | misc/calcpaths.cc:227-245 | one round keeps the ancestor closure and raises the rank bound |
| CalcPaths.GetAllParents | misc/calcpaths.cc:227-245 | the result is `objs` together with all their ancestors |
| CalcPaths.ProperAncestors | misc/calcpaths.cc:254-270 | the ancestor closure of a node's parents is its proper ancestors |
| CalcPaths.IsChildRound | misc/calcpaths.cc:254-270 | one round of `isChild` keeps the answer for what is left |
| CalcPaths.IsChild | misc/calcpaths.cc:254-270 | true iff some proper ancestor of `o` is in `os` |
| SidePaths.ParentBelow | misc/calcpaths.cc:191-218 | a parent is a node of lower rank that lists `o` as a child |
| SidePaths.ParentsAreNodes | misc/calcpaths.cc:191-218 | all parents of a node are nodes of lower rank |
| SidePaths.ViaCacheMeaning | misc/calcpaths.cc:178-189 | a node reached through cache nodes is not cached and reaches `o` |
| SidePaths.RootsMeaning | misc/calcpaths.cc:178-189 | every root of a set is uncached and reaches a node of the set |
| SidePaths.RootsOne | misc/calcpaths.cc:178-189 | an uncached node is its own root; a cached node's roots are its parents' roots |
| SidePaths.RootsUnion | misc/calcpaths.cc:178-189 | the roots of a union are the union of the roots |
| SidePaths.RootsEmpty | misc/calcpaths.cc:178-189 | the empty set has no roots |
| SidePaths.AppendFresh | misc/calcpaths.cc:178-189 | appending a node not yet present keeps the list free of duplicates |
| SidePaths.PresentAlready | misc/calcpaths.cc:178-189 | a node already present adds nothing to the set of elements |
| SidePaths.AddNonCacheAsWritten | misc/calcpaths.cc:178-189 | as written, a cache node adds nothing; a new non-cache node is appended; one already listed recurses into its parents |
| SidePaths.NewEntries | misc/calcpaths.cc:178-189 | what the parent calls add lies above `o` |
| SidePaths.AddNonCache | misc/calcpaths.cc:178-189 | corrected: adds exactly the uncached nodes reached by walking up through cache nodes, with no duplicates |
| SidePaths.CacheParentDropped | misc/calcpaths.cc:178-189 | on the graph where cached node 1 has the single uncached parent 0, the intended closure of node 1 is {0} |
| SidePaths.AddNonCacheOnPair | misc/calcpaths.cc:178-189 | on that graph, addNonCache as written leaves the list empty for node 1, while the corrected rule collects exactly node 0 |
| SidePaths.DependsStep | misc/calcpaths.cc:191-218 | `o` depends on `from` iff it is in `from` or some parent depends on it |
| SidePaths.SideUnion | misc/calcpaths.cc:191-218 | the side nodes of a union are the union of the side nodes |
| SidePaths.SideEmpty | misc/calcpaths.cc:191-218 | the empty set has no side nodes |
| SidePaths.SideOne | misc/calcpaths.cc:191-218 | a node in `from` contributes nothing; otherwise its local roots plus its parents' side nodes |
| SidePaths.LocalNodes | misc/calcpaths.cc:191-218 | the local side nodes are graph nodes |
| SidePaths.NonDepSnoc | misc/calcpaths.cc:191-218 | the independent parents grow by one parent at a time |
| SidePaths.SideSnoc | misc/calcpaths.cc:191-218 | the parent loop's invariant is kept by one more parent |
| SidePaths.DepsSnoc | misc/calcpaths.cc:191-218 | the recorded dependency flags stay exact as the loop advances |
| SidePaths.VisitDone | misc/calcpaths.cc:191-218 | the final step of `visit` gives its answer and its additions |
| SidePaths.LocalIs | misc/calcpaths.cc:191-218 | a node with both dependent and independent parents adds the roots of the independent ones, and nothing otherwise |
| SidePaths.DepsMeaning | misc/calcpaths.cc:191-218 | some parent depends iff the node does; with all dependent, no parent is independent |
| SidePaths.Visit | misc/calcpaths.cc:191-218 | with the corrected `addNonCache`: returns whether `o` depends on `from`, and appends exactly the side nodes of `o`, without duplicates |
| SidePaths.VisitParents | misc/calcpaths.cc:191-218 | with the corrected `addNonCache`: the recursive calls over the parents record each parent's answer and append the parents' side nodes |
| SidePaths.AddNonDependent | misc/calcpaths.cc:191-218 | the independent parents are passed to the corrected `addNonCache` |
| SidePaths.SideOfTreePath | misc/calcpaths.cc:220-225 | with the corrected `addNonCache`: the result has no duplicates and is exactly the side nodes of `to` |
| SidePaths.SideMeaning | misc/calcpaths.cc:191-225 | a side node is uncached, reaches `to` and does not depend on `from` |
| SidePaths.ExploredReaches | misc/calcpaths.cc:191-218 | every node `visit` explores reaches `o` |
| KSeg.ReadToKSeg | filters/kseg-filter.cc:62-80 | reading a coordinate back from KSeg window pixels is the identity |
| KSeg.ToKSegRead | filters/kseg-filter.cc:62-80 | the pixel mapping is a bijection: mapping back gives the pixels read |
| KSeg.ReadKSegCorners | filters/kseg-filter.cc:62-80 | (0, 600) maps to (−7, −7), (600, 0) to (7, 7) and (300, 300) to the origin |
| KSeg.ReadKSegOrientation | filters/kseg-filter.cc:62-80 | x keeps its order and y is flipped |
| KSeg.DecodeInfo | filters/kseg-filter.cc:237-245 | the decoded type bit, descend type and flags are in range |
| KSeg.DecodeEncodeInfo | filters/kseg-filter.cc:237-245 | decoding an encoded info word gives back the fields |
| KSeg.DecodedLowBits | filters/kseg-filter.cc:237-241 | the type is bits 0–4 and the descend type bits 5–8 |
| KSeg.DecodedFlagBits | filters/kseg-filter.cc:242-245 | visible, labelVisible, given and final are bits 9, 10, 11 and 12 |
| KSeg.EncodeDecodeInfo | filters/kseg-filter.cc:237-245 | the decoding reads exactly the low 13 bits |
| KSeg.IntersectionPoint | filters/kseg-filter.cc:82-121 | an object is made iff there are exactly two parents forming an accepted kind pair for `which` |
| KSeg.SecondLineLineIntersection | filters/kseg-filter.cc:99-100 | two lines intersect only for `which == -1` |
| KSeg.LineConicIntersection | filters/kseg-filter.cc:101-105 | a line and a conic, in either order, append `IntImp(which)` |
| KSeg.TwoConicsIntersection | filters/kseg-filter.cc:106-114 | two conics intersect the first with their radical line |
| KSeg.UnsupportedIntersections | filters/kseg-filter.cc:84-98 | point parents, two arcs, or an arc with a conic give nothing |
| KSeg.TransformObject | filters/kseg-filter.cc:123-173 | `ok` is false only for a scaling without exactly 4 parents; an object is made iff `ok` |
| KSeg.TransformObjectKeepsParents | filters/kseg-filter.cc:128-163 | the made object is a type calcer on `parents[0]` whose arguments are sliced from the remaining parents |
| KSegLoad.PointWidth | filters/kseg-filter.cc:341 | point width is 2 for the small circle style, 3 for the medium one, 5 otherwise |
| KSegLoad.Resolve | filters/kseg-filter.cc:228-233 | each parent index is replaced by the calcer of that earlier record |
| KSegLoad.Load | filters/kseg-filter.cc:175-678 | the record loop computes the document the load specification defines, stopping at the first record that fails, and reading nothing after it |
| KSegLoad.NullOnlyWhenNotOk | filters/kseg-filter.cc:622-627 | a record makes no object only when `ok` was cleared, which happens only for a scaling without 4 parents |
| KSegLoad.FreePointRule | filters/kseg-filter.cc:292-299 | a free point needs no parents and sits at the read coordinate; otherwise a parse error |
| KSegLoad.ConstrainedPointRule | filters/kseg-filter.cc:300-310 | a constrained point needs exactly one parent and takes the read parameter |
| KSegLoad.IntersectionRule | filters/kseg-filter.cc:311-326 | the two intersection kinds are made iff the parent pair is accepted for −1 and for 1 |
| KSegLoad.CenterRadiusRule | filters/kseg-filter.cc:438-456 | centre and radius segment, in either order, give a circle through the segment's length property |
| KSegLoad.UnsupportedKinds | filters/kseg-filter.cc:503-519 | filled circles, arc sectors and arc segments stop the load with "not supported" |
| KSegLoad.MeasureRule | filters/kseg-filter.cc:541-610 | a measure is a text object at the read coordinate, for the six supported measure kinds |
| KSegLoad.RecordHolder | filters/kseg-filter.cc:629-653 | the holder's visibility, name, width and colour come from the record and its style; a label is attached only to a named, label-visible point |
| KSegLoad.LoadFromShape | filters/kseg-filter.cc:216-677 | a successful loop fills one slot per record, keeps earlier slots, and turns off axes and grid |
| KSegLoad.LoadFromLoadable | filters/kseg-filter.cc:223-654 | a loop that succeeds from a record on went only through well-formed records of kinds the filter imports |
| KSegLoad.LoadedDocument | filters/kseg-filter.cc:175-678 | a loaded document has the version prefix, one slot per record, empty exactly for loop records; an unsupported record, or one the source would read out of bounds, makes the load fail |
| KSegLoad.FirstRecordRefused | filters/kseg-filter.cc:503-508 | a well-formed first record that is a filled circle fails the load with "not supported", whatever the records after it hold |
| DrGeo.NumberString | filters/drgeo-filter.cc:171-172 | the decimal string of a number is non-empty and one digit below 10 |
| DrGeo.NumberStringInjective | filters/drgeo-filter.cc:171-172 | different numbers have different decimal strings |
| DrGeo.WithoutId | filters/drgeo-filter.cc:153-172 | the count of elements without an id is at most the number of elements seen |
| DrGeo.FetchHierarchy | filters/drgeo-filter.cc:153-174 | one hierarchy entry per element, with its own id or the next generated number, and its parent references |
| DrGeo.WithoutIdMonotone | filters/drgeo-filter.cc:171-172 | the generated-id counter strictly grows past each element without an id |
| DrGeo.GeneratedIdsDistinct | filters/drgeo-filter.cc:171-172 | two elements without an id get different ids |
| DrGeo.IndexOf | filters/drgeo-filter.cc:139-145 | the first index whose id matches, or −1 iff none does |
| DrGeo.ConvertDrgeoIndex | filters/drgeo-filter.cc:139-145 | the search loop returns that index |
| DrGeo.Boxes | filters/drgeo-filter.cc:639-643 | the count of bounding boxes before an index is at most the index |
| DrGeo.HolderIndexStep | filters/drgeo-filter.cc:639-643 | a bounding box takes no holder slot; any other element takes one |
| DrGeo.HolderIndexMonotone | filters/drgeo-filter.cc:639-643 | holder slots grow with the element index |
| DrGeo.Parents | filters/drgeo-filter.cc:199-209 | corrected: a success resolves each reference to the holder of its element; an unknown id is a parse error |
| DrGeo.ParentsSucceed | filters/drgeo-filter.cc:199-209 | corrected: when every reference names a non-box element whose holder exists, the lookup succeeds |
| DrGeo.ParentsAsWritten | filters/drgeo-filter.cc:205-208 | as written: a success resolves each reference to `holders[parentid - nignored]`, and the lookup succeeds when every such index falls among the holders |
| DrGeo.WhichOf | filters/drgeo-filter.cc:303-308 | `extra` 0 gives −1, 1 gives 1, and anything else, or nothing, is a parse error |
| DrGeo.OnCurveParam | filters/drgeo-filter.cc:267-285 | on a circle or segment the parameter is `value`; on an arc `1 − value`; unsupported otherwise |
| DrGeo.MakeCalcer | filters/drgeo-filter.cc:219-651 | exactly the bounding boxes are ignored |
| DrGeo.Width | filters/drgeo-filter.cc:664-685 | points: Normal 7, Thick 9; line-like: Thick 2; otherwise −1 |
| DrGeo.Pen | filters/drgeo-filter.cc:679-685 | dotted exactly for a Dashed line-like object |
| DrGeo.Shown | filters/drgeo-filter.cc:689-690 | shown unless `masked` is "True" or "Alway" |
| DrGeo.DrGeoIgnoresBoxes | filters/drgeo-filter.cc:639-643 | the Dr. Geo importer ignores exactly the bounding boxes |
| DrGeo.HierarchyOf | filters/drgeo-filter.cc:153-174 | the id pass produces the hierarchy the second pass reads |
| DrGeo.ImportFromStep | filters/drgeo-filter.cc:197-702 | one element either fails, is skipped, or pushes its holder |
| DrGeo.SlotsExtend | filters/drgeo-filter.cc:639-702 | the element-to-holder slot table stays exact after each element |
| DrGeo.ResolveParents | filters/drgeo-filter.cc:199-209 | the parent loop computes the corrected parent resolution |
| DrGeo.ParentsCons | filters/drgeo-filter.cc:199-209 | resolution of a reference list splits at its first reference |
| DrGeo.JoinedAppend | filters/drgeo-filter.cc:199-209 | joining resolved parents is associative |
| DrGeo.ImportFigure | filters/drgeo-filter.cc:147-707 | the two passes compute the import specification, with the corrected parent lookup |
| DrGeo.ImportFromShape | filters/drgeo-filter.cc:197-702 | a successful import has one holder per non-box element, each the result of its element |
| DrGeo.ImportedFigure | filters/drgeo-filter.cc:147-707 | an imported figure has one holder per non-box element, made from its element, and a Euclidean grid iff `grid` |
| DrGeo.RefusedElementFails | filters/drgeo-filter.cc:633-637 | a figure with a polygon element fails to import |
| DrGeo.PolygonNeverPushed | filters/drgeo-filter.cc:633-637 | a polygon element never pushes a holder |
| DrGeo.FreePointRule | filters/drgeo-filter.cc:242-247 | a free point needs both coordinates and is fixed there; otherwise a parse error |
| DrGeo.OnCurveRule | filters/drgeo-filter.cc:267-278 | a point on an arc uses `1 − value`, on a circle or segment `value` |
| DrGeo.CircleIntersectionRule | filters/drgeo-filter.cc:298-310 | two circles fail exactly on a bad `extra`, and `extra` 0 selects −1 |
| DrGeo.MeasureArityRule | filters/drgeo-filter.cc:451-534 | a one-parent measure fails exactly when the parent count is not 1 |
| DrGeo.BoxShiftsParents | filters/drgeo-filter.cc:205-208 | with a bounding box between two points, the code as written resolves the second point's reference to the first point's holder |
| DrGeo.FiguresOf | filters/drgeo-filter.cc:90-98 | the figures are the `drgeo` nodes of the file |
| DrGeo.FiguresPrefix | filters/drgeo-filter.cc:119-134 | the figures of a prefix come first among the figures |
| DrGeo.CountTopNodes | filters/drgeo-filter.cc:90-98 | counts the figures and the macros |
| DrGeo.FindFigure | filters/drgeo-filter.cc:118-136 | finds the node of the chosen figure, or −1 iff the choice is out of range |
| DrGeo.Load | filters/drgeo-filter.cc:74-136 | the load computes the load specification, with the corrected parent lookup |
| DrGeo.SingleFigure | filters/drgeo-filter.cc:108-131 | with one figure the choice is not asked, and that figure is imported with its grid attribute |
| DrGeo.NoFigureFile | filters/drgeo-filter.cc:99-106 | a file with no figures fails, noting whether it holds macros |
| DrGeo.FigureFreeCounts | filters/drgeo-filter.cc:90-106 | without figures, the macro count is positive iff there is a macro |
| GeoGebra.PlacementOf | geogebra/geogebratransformer.cpp:140-155 | with no input labels an object is an output; otherwise a listed input is an input, a listed output an output, and others go nowhere |
| GeoGebra.Filed | geogebra/geogebratransformer.cpp:140-155 | filing appends the calcer to the inputs or the outputs as placed, and changes nothing else |
| GeoGebra.LabelArgument | geogebra/geogebratransformer.cpp:59-83 | a number is a constant double; otherwise a known label gives its object, an unknown one nothing |
| GeoGebra.FiledRecorded | geogebra/geogebratransformer.cpp:129-161 | a section only lists objects of the object map |
| GeoGebra.RecordedGrows | geogebra/geogebratransformer.cpp:129-161 | inserting a new label keeps every listed object in the map |
| GeoGebra.Transformer.StartElement | geogebra/geogebratransformer.cpp:193-240 | a Section appends a section and clears labels, stack and map; otherwise it looks up the object, or switches to arguments, or to double for a Double |
| GeoGebra.Transformer.Attribute | geogebra/geogebratransformer.cpp:43-111 | label, value, Name, Description, Input and Output each update exactly their field, as the state says |
| GeoGebra.Transformer.EndElement | geogebra/geogebratransformer.cpp:125-175 | inserts and files the object only if its label is new, always clears the stack and the current object, and otherwise returns to reading objects |
| Labels.Search | modes/label.cc:161-172 | the first `%` followed by a digit at or after `from`, or −1 when there is none |
| Labels.SkipToMatch | modes/label.cc:161-172 | skipping a stretch without matches keeps the count |
| Labels.SearchCounts | modes/label.cc:161-172 | the count is one per found match, resuming after it |
| Labels.NoPlaceholders | modes/label.cc:161-172 | the count is 0 iff there is no match |
| Labels.PlaceholdersBound | modes/label.cc:161-172 | the matches do not overlap, so at most half the characters count |
| Labels.PercentCount | modes/label.cc:161-172 | the loop counts the non-overlapping placeholders |
| Labels.Links | modes/label.cc:271-320 | the links of a part list are link parts |
| Labels.Appended | modes/label.cc:288-314 | appending a part extends the spelled text and the links |
| Labels.TextStep | modes/label.cc:288-314 | emitting the text before a match keeps the spelled prefix and the links |
| Labels.LinkStep | modes/label.cc:288-314 | emitting a match adds one numbered link and spells its token |
| Labels.SplitLinks | modes/label.cc:276-314 | the parts spell the text, with one link per placeholder, numbered in order, and no empty text part |
| Labels.TextLabelMode.constructor | modes/label.cc:49-53 | no arguments, count 0, selecting the location |
| Labels.TextLabelMode.AllPicked | modes/label.cc:215-218 | true iff every argument has been picked |
| Labels.TextLabelMode.UpdateWiz | modes/label.cc:236-264 | clears the arguments iff the count changed, stores the count, and enables finishing with arguments iff they are complete |
| Labels.TextLabelMode.FinishPressed | modes/label.cc:175-234 | on the text page it makes a plain label; otherwise a label is made iff every argument is picked and their number is the placeholder count |
| Labels.TextLabelMode.LinkClicked | modes/label.cc:322-334 | grows the arguments to at least i+1 with unset new entries, keeps the existing ones, selects argument i, and leaves the placeholder count and the wizard switches as they were |
| Labels.TextLabelMode.ArgumentPicked | modes/label.cc:108 | stores the picked object and property in the argument being selected; nothing else changes, the wizard switches included |

## Left out

- I/O is not modelled. The filters' input arrives as decoded values, as sequences of records and elements. This covers reading files, `QDataStream`, `QDomDocument`, `KZip` and the XML reader.
- Floating point is not modelled; coordinates are `real`.
- The numeric kernels are parameters of the model. They are `atan2`, `calcCenter`, vector length, `Transformation::apply` and `isHomothetic`, `isOnSegment`, `lineInRect` and `calcConicThroughPoints`.
- Drawing, colours, pens and fonts are left out (`Locus::draw`, `ObjectDrawer`), as are the pixel width and the widget calls of the text-label wizard.
- The `calc()` calls on new calcers are left out: they compute imps with the numeric kernels. The imp of a calcer is a parameter.
- misc/argsparser.cc is not part of this model. `ArgsParser::parse` is modelled as putting each argument into the first free slot of its type, and `checkArgs` as "enough arguments, each valid and of its slot's type".
- kseg-defs.h is not part of this model. Record kinds and descend types are enumerations, and the info word's type field is read as a bit index.
- GeoGebra.Transformer.constructor: geogebratransformer.h, where the constructor lives, is not part of this model. The initial state is assumed to be "reading objects, everything empty"; no source line states it.
- objects/locus.h declares an older interface (`obj`, `calcPointLocus`); the model follows objects/locus.cpp (`mp`).
- Loci.Locus.Recurse: the sample cap follows the code. `i` is compared to numberOfSamples after it has grown, so up to numberOfSamples + 1 = 501 samples are kept. The documentation speaks of 500.
- Loci.Locus.Recurse: the distance test (`1.5·pixelWidth`) is a parameter, so the contract states what is added first and what is never added, not the whole recursion tree.
- Rects.Rect.Scale: misc/rect.h documents that `scale` keeps the top-left corner; misc/rect.cc keeps the bottom-left corner. The model follows the code.
- KSeg.ReadToKSeg: ToKSegCoordinate is not in the source. It is the inverse used to state the round trip.
- KSegLoad.Load: a record the source reads without checking ends the load with the error `Undefined`, since the source's behaviour there is undefined. This covers a parent index that is not an earlier record, a parent that is a loop record (its null slot is dereferenced, filters/kseg-filter.cc:232), a style index outside the styles read (`drawstyles[styleid]`, :252), a centre-radius circle with fewer than two parents (`parents[1]`, :438-456), and a translated or rotated record without the parents its slices read. The check is made only for the record the loop has reached, as the source reads records one at a time.
- Unchecked indices in the source are preconditions, not invented checks:
  - Polygons.Contains and Polygons.InRect: the polygon must have at least one vertex. On an empty polygon `mpoints.size() - 1` wraps round as an unsigned number and the loop reads past the vertices (objects/polygon_imp.cc:69, :82).
  - GeoGebra.Transformer.Attribute and GeoGebra.Transformer.EndElement: a section must exist before its name, description or objects arrive (`m_sections[m_nsections-1]`).
  - Labels.TextLabelMode.ArgumentPicked: the argument being selected must exist (`margs[mwaaws]`).
  - KSeg.TransformObject: translations and rotations must have the parents their slicing reads.
- GeoGebra.Transformer.Attribute: the debug assertion that a `value` attribute comes in the double state is not modelled; like a release build, the value is pushed in any state.
- GeoGebra.Transformer.EndElement: calcers are values, not pointers, so two objects with the same type and arguments are not told apart. The object's own `calc` is left out.
- SidePaths.Visit: built on the corrected `AddNonCache`. On a cached node with an uncached parent (the first Findings row), the source's `visit` drops that parent and the model appends it.
- SidePaths.VisitParents: its side nodes come through the corrected `AddNonCache`, so it differs from misc/calcpaths.cc:191-218 on the same input.
- SidePaths.AddNonDependent: calls the corrected `AddNonCache`, not misc/calcpaths.cc:178-189 as written.
- SidePaths.SideOfTreePath: returns the corrected side set. The source's `sideOfTreePath` omits the uncached parents of cached side nodes.
- DrGeo.ImportFigure: resolves parents through the corrected slot table, not `holders[parentid - nignored]` (filters/drgeo-filter.cc:205-208). When a bounding box lies between a parent and its child (the third Findings row), the source picks another holder.
- DrGeo.Load: imports with the corrected parent lookup of `ImportFigure`, so on that input it differs from filters/drgeo-filter.cc the same way.
- DrGeo.ImportFigure: Dr. Geo nodes that are not elements (comments, text) are not modelled; the figure is the sequence of its elements. The chooser dialog for several figures is the `choice` parameter.
- DrGeo.MakeCalcer: an on-curve point without parents, or an intersection with fewer than two, reads past the end of `parents` in the source; the model fails such an element with `Undefined`. The debug print of `parents[1]` (filters/drgeo-filter.cc:211) is left out, as are colour parsing and the point style.
- Labels.TextLabelMode.FinishPressed: the label's position and the object it creates are the `Created` value. The text of the links (`getString`) is left out.
- modes/normal.cc, the UI headers, misc/kigpainter.h, kig/kig.cpp, kig/kig_iface.h, filters/svgexporter.h and the Python scripting are outside the object engine.
- objects/object.h, objects/intersection_types.h, misc/types.h, filters/kgeo-filter.h and objects/curve_imp.cc only declare or register; no behaviour of theirs is modelled.

## Findings

| source | as written | input that shows it | evidently intended | confidence | as-written member | corrected member |
|---|---|---|---|---|---|---|
| misc/calcpaths.cc:178-189 | the `else` binds to the inner `if`, so a cache node adds nothing and a non-cache node already in `ret` recurses into its parents | node 1 is cached and its only parent 0 is not: `addNonCache(1)` adds nothing | a cache node is replaced by its parents, so node 0 is added | not executed | SidePaths.AddNonCacheAsWritten, SidePaths.AddNonCacheOnPair | SidePaths.AddNonCache, SidePaths.CacheParentDropped |
| objects/polygon_imp.cc:206-214 | the bounding rect starts as the zero rect at the origin, so it always takes in the origin | the triangle (1,1), (2,1), (1,2) gives the rect from (0,0) to (2,2) | the least rect around the vertices, from (1,1) to (2,2) | not executed | Polygons.SurroundingRectAsWritten, Polygons.SurroundingRectTakesInOrigin | Polygons.SurroundingRect, Polygons.SurroundingRectTight |
| filters/drgeo-filter.cc:205-208 | a parent is read from `holders[parentid - nignored]`, where `nignored` counts every bounding box seen so far, including those after the parent | points a, b, then a box, then an element with parent b: b's holder is slot 1, the code reads slot 0 (a) | subtract only the boxes that come before the parent | not executed | DrGeo.ParentsAsWritten, DrGeo.BoxShiftsParents | DrGeo.Parents |
