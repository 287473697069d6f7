/**
 * The GeoGebra tool reader (geogebra/geogebratransformer.cpp): the
 * callbacks an XML query calls while it walks a GeoGebra macro file.
 * A three-state machine collects, element by element, the type of the
 * object being read, its label and its arguments, and on the closing
 * element builds the object's calcer, records it under its label and
 * files it among the inputs or outputs of the current section.
 */
module GeoGebra {
  import opened Wrappers
  import opened Objects

  /** m_currentState. */
  datatype ReadState = ReadingObject | ReadingArguments | ReadingDouble

  /** A GeogebraSection: name, description and the calcers of its input and output objects. */
  datatype Section = Section(name: string, description: string, inputs: seq<Calcer>, outputs: seq<Calcer>)

  const EmptySection := Section("", "", [], [])

  /** Where endElement files a newly built object. */
  datatype Placement = AsInput | AsOutput | Nowhere

  /**
   * The filing rule: with no input labels declared every object is an
   * output; otherwise a declared input is an input, a declared output an
   * output, and any other object is filed nowhere.
   */
  function PlacementOf(inputs: set<string>, outputs: set<string>, l: string): (p: Placement)
    ensures inputs == {} ==> p == AsOutput
    ensures p == AsInput <==> l in inputs
    ensures p == AsOutput <==> inputs == {} || (l !in inputs && l in outputs)
  {
    if inputs == {} then AsOutput
    else if l in inputs then AsInput
    else if l in outputs then AsOutput
    else Nowhere
  }

  /** The section with the object filed where PlacementOf says. */
  function Filed(s: Section, p: Placement, c: Calcer): (r: Section)
    ensures r.name == s.name && r.description == s.description
    ensures r.inputs == s.inputs + (if p == AsInput then [c] else [])
    ensures r.outputs == s.outputs + (if p == AsOutput then [c] else [])
  {
    match p
    case AsInput => s.(inputs := s.inputs + [c])
    case AsOutput => s.(outputs := s.outputs + [c])
    case Nowhere => s
  }

  /**
   * The argument a `label` attribute contributes while arguments are
   * read: a number becomes a constant double, a known label its object,
   * and an unknown label nothing.
   */
  function LabelArgument(number: Option<real>, text: string, objects: map<string, Calcer>): (r: Option<Calcer>)
    ensures number.Some? ==> r == Some(ConstCalcer(DoubleImp(number.value)))
    ensures number.None? ==> (r.Some? <==> text in objects)
    ensures number.None? && text in objects ==> r == Some(objects[text])
  {
    if number.Some? then Some(ConstCalcer(DoubleImp(number.value)))
    else if text in objects then Some(objects[text])
    else None
  }

  /** Every calcer of `cs` is one of the recorded objects. */
  predicate Recorded(cs: seq<Calcer>, objects: map<string, Calcer>) {
    forall k :: 0 <= k < |cs| ==> cs[k] in objects.Values
  }

  /** Filing a recorded object into a section whose objects are recorded keeps them all recorded. */
  lemma FiledRecorded(s: Section, p: Placement, c: Calcer, objects: map<string, Calcer>)
    requires Recorded(s.inputs, objects) && Recorded(s.outputs, objects) && c in objects.Values
    ensures Recorded(Filed(s, p, c).inputs, objects) && Recorded(Filed(s, p, c).outputs, objects)
  {
    var r := Filed(s, p, c);
    forall k | 0 <= k < |r.inputs| ensures r.inputs[k] in objects.Values {
      if k < |s.inputs| {
        assert r.inputs[k] == s.inputs[k];
      }
    }
    forall k | 0 <= k < |r.outputs| ensures r.outputs[k] in objects.Values {
      if k < |s.outputs| {
        assert r.outputs[k] == s.outputs[k];
      }
    }
  }

  /** Recording one more label keeps every recorded object recorded. */
  lemma RecordedGrows(cs: seq<Calcer>, objects: map<string, Calcer>, l: string, c: Calcer)
    requires Recorded(cs, objects) && l !in objects
    ensures Recorded(cs, objects[l := c])
  {
    forall k | 0 <= k < |cs| ensures cs[k] in objects[l := c].Values {
      assert cs[k] in objects.Values;
      var l' :| l' in objects && objects[l'] == cs[k];
      assert objects[l := c][l'] == cs[k];
    }
  }

  /** All the fields of the transformer, for stating what a callback leaves alone. */
  datatype Snapshot = Snapshot(
    state: ReadState, current: Option<string>, currentLabel: string, argStack: seq<Calcer>,
    objectMap: map<string, Calcer>, nsections: nat, sections: seq<Section>,
    inputLabels: set<string>, outputLabels: set<string>)

  class Transformer {
    var state: ReadState
    /** m_currentObject: the name of the object type being read, None for a null type. */
    var current: Option<string>
    var currentLabel: string
    var argStack: seq<Calcer>
    var objectMap: map<string, Calcer>
    var nsections: nat
    var sections: seq<Section>
    var inputLabels: set<string>
    var outputLabels: set<string>

    function Fields(): Snapshot
      reads this
    {
      Snapshot(state, current, currentLabel, argStack, objectMap, nsections, sections, inputLabels, outputLabels)
    }

    /**
     * The section counter matches the sections, and every object filed in
     * the current section is one of the objects recorded by label.
     */
    predicate Valid()
      reads this
    {
      nsections == |sections| &&
      (nsections > 0 ==>
        Recorded(sections[nsections - 1].inputs, objectMap) &&
        Recorded(sections[nsections - 1].outputs, objectMap))
    }

    constructor()
      ensures Valid()
      ensures Fields() == Snapshot(ReadingObject, None, "", [], map[], 0, [], {}, {})
    {
      state := ReadingObject;
      current := None;
      currentLabel := "";
      argStack := [];
      objectMap := map[];
      nsections := 0;
      sections := [];
      inputLabels := {};
      outputLabels := {};
    }

    /**
     * startElement. `find` is the object type factory's lookup by name.
     * A Section element opens a new section and forgets everything read
     * for the previous one; otherwise the state decides.
     */
    method StartElement(name: string, find: string -> Option<string>)
      requires Valid()
      modifies this
      decreases if state == ReadingObject then 1 else 0
      ensures Valid()
      ensures name == "Section" ==>
        Fields() == old(Fields()).(nsections := old(nsections) + 1, sections := old(sections) + [EmptySection],
          inputLabels := {}, outputLabels := {}, argStack := [], objectMap := map[])
      ensures name != "Section" && old(state) == ReadingObject && old(current).None? ==>
        Fields() == old(Fields()).(current := find(name))
      ensures name != "Section" && ((old(state) == ReadingObject && old(current).Some?) || old(state) == ReadingArguments) ==>
        Fields() == old(Fields()).(state := if name == "Double" then ReadingDouble else ReadingArguments)
      ensures name != "Section" && old(state) == ReadingDouble ==> Fields() == old(Fields())
    {
      if name == "Section" {
        nsections := nsections + 1;
        sections := sections + [EmptySection];
        inputLabels := {};
        outputLabels := {};
        argStack := [];
        objectMap := map[];
        return;
      }
      match state {
        case ReadingObject =>
          if current.Some? {
            state := ReadingArguments;
            StartElement(name, find);
            return;
          }
          current := find(name);
        case ReadingArguments =>
          if name == "Double" {
            state := ReadingDouble;
          }
        case ReadingDouble =>
      }
    }

    /**
     * attribute. `toDouble` is the string-to-number conversion, None when
     * the text is not a number. The Name and Description attributes write
     * into the current section, which the source indexes unchecked.
     */
    method Attribute(name: string, value: string, toDouble: string -> Option<real>)
      requires Valid()
      requires name == "Name" || name == "Description" ==> nsections > 0
      modifies this
      ensures Valid()
      ensures name == "label" && old(state) == ReadingObject ==>
        Fields() == old(Fields()).(currentLabel := value, state := ReadingArguments)
      ensures name == "label" && old(state) == ReadingArguments ==>
        var arg := LabelArgument(toDouble(value), value, old(objectMap));
        Fields() == old(Fields()).(argStack := old(argStack) + (if arg.Some? then [arg.value] else []))
      ensures name == "label" && old(state) == ReadingDouble ==> Fields() == old(Fields())
      ensures name == "value" ==>
        Fields() == old(Fields()).(argStack := old(argStack) + [ConstCalcer(DoubleImp(NumberOrZero(toDouble(value))))])
      ensures name == "Name" ==>
        Fields() == old(Fields()).(sections := old(sections)[old(nsections) - 1 := old(sections)[old(nsections) - 1].(name := value)])
      ensures name == "Description" ==>
        Fields() == old(Fields()).(sections := old(sections)[old(nsections) - 1 := old(sections)[old(nsections) - 1].(description := value)])
      ensures name == "Input" ==> Fields() == old(Fields()).(inputLabels := old(inputLabels) + {value})
      ensures name == "Output" ==> Fields() == old(Fields()).(outputLabels := old(outputLabels) + {value})
      ensures name !in {"label", "value", "Name", "Description", "Input", "Output"} ==> Fields() == old(Fields())
    {
      if name == "label" {
        match state {
          case ReadingObject =>
            currentLabel := value;
            state := ReadingArguments;
          case ReadingArguments =>
            var number := toDouble(value);
            if number.Some? {
              argStack := argStack + [ConstCalcer(DoubleImp(number.value))];
            } else if value in objectMap {
              argStack := argStack + [objectMap[value]];
            }
          case ReadingDouble =>
        }
      } else if name == "value" {
        argStack := argStack + [ConstCalcer(DoubleImp(NumberOrZero(toDouble(value))))];
      } else if name == "Name" {
        sections := sections[nsections - 1 := sections[nsections - 1].(name := value)];
      } else if name == "Description" {
        sections := sections[nsections - 1 := sections[nsections - 1].(description := value)];
      } else if name == "Input" {
        inputLabels := inputLabels + {value};
      } else if name == "Output" {
        outputLabels := outputLabels + {value};
      }
    }

    /**
     * endElement. Closing an object builds its calcer from the collected
     * arguments, records and files it unless its label is already taken,
     * and starts afresh; closing an argument returns to reading objects.
     */
    method EndElement()
      requires Valid()
      requires state == ReadingObject && current.Some? && currentLabel !in objectMap ==> nsections > 0
      modifies this
      ensures Valid()
      ensures old(state) == ReadingObject && old(current).None? ==> Fields() == old(Fields())
      ensures old(state) == ReadingObject && old(current).Some? && old(currentLabel) in old(objectMap) ==>
        Fields() == old(Fields()).(argStack := [], current := None)
      ensures old(state) == ReadingObject && old(current).Some? && old(currentLabel) !in old(objectMap) ==>
        var oc := TypeCalcer(old(current).value, old(argStack));
        var p := PlacementOf(old(inputLabels), old(outputLabels), old(currentLabel));
        Fields() == old(Fields()).(argStack := [], current := None,
          objectMap := old(objectMap)[old(currentLabel) := oc],
          sections := old(sections)[old(nsections) - 1 := Filed(old(sections)[old(nsections) - 1], p, oc)])
      ensures old(state) != ReadingObject ==> Fields() == old(Fields()).(state := ReadingObject)
      ensures forall l :: l in old(objectMap) ==> l in objectMap && objectMap[l] == old(objectMap)[l]
      ensures |objectMap| <= |old(objectMap)| + 1
    {
      match state {
        case ReadingObject =>
          if current.Some? {
            if currentLabel !in objectMap {
              var oc := TypeCalcer(current.value, argStack);
              var last := sections[nsections - 1];
              RecordedGrows(last.inputs, objectMap, currentLabel, oc);
              RecordedGrows(last.outputs, objectMap, currentLabel, oc);
              objectMap := objectMap[currentLabel := oc];
              assert objectMap[currentLabel] == oc;
              FiledRecorded(last, PlacementOf(inputLabels, outputLabels, currentLabel), oc, objectMap);
              sections := sections[nsections - 1 := Filed(last, PlacementOf(inputLabels, outputLabels, currentLabel), oc)];
            }
            argStack := [];
            current := None;
          }
        case ReadingArguments =>
          state := ReadingObject;
        case ReadingDouble =>
          state := ReadingObject;
      }
    }
  }

  /** QString::toDouble without the success flag: 0 when the text is not a number. */
  function NumberOrZero(n: Option<real>): real {
    if n.Some? then n.value else 0.0
  }
}
