/**
 The planner and the executor agree on the image-build phase too
 (tools/hk_v1_host_reconcile.py:650-700 into tools/hk_v1_host_apply.py:325-453).
 */
module HostBuildAgreement {
  import opened Wrappers
  import opened Text
  import opened Ordering
  import opened HostPlan
  import opened HostGrammar
  import opened HostReconcile
  import opened HostAgreement

  // ----- rows split in one way ---------------------------------------------------------

  function Bars(s: string): nat {
    multiset(s)['|']
  }

  /** A row has one bar between each two fields, and the bars of its fields. */
  lemma {:induction false} BarsOfRow(fields: seq<string>)
    requires fields != []
    ensures Bars(Bar(fields)) >= |fields| - 1
    ensures Bars(Bar(fields)) == |fields| - 1 ==> NoBars(fields)
    ensures NoBars(fields) ==> Bars(Bar(fields)) == |fields| - 1
  {
    assert '|' in fields[0] <==> Bars(fields[0]) > 0;
    if |fields| > 1 {
      BarsOfRow(fields[1..]);
      var row := fields[0] + "|" + Bar(fields[1..]);
      assert multiset(row) == multiset(fields[0]) + multiset{'|'} + multiset(Bar(fields[1..]));
      if NoBars(fields[1..]) && '|' !in fields[0] {
        forall i | 0 <= i < |fields| ensures '|' !in fields[i] {
          assert i > 0 ==> fields[i] == fields[1..][i - 1];
        }
      }
    }
  }

  lemma HeadsAgree(a: string, b: string, c: string, d: string)
    requires '|' !in a && '|' !in b && a + ("|" + c) == b + ("|" + d)
    ensures a == b && c == d
  {
    var left, right := a + ("|" + c), b + ("|" + d);
    NoBarAnywhere(a);
    NoBarAnywhere(b);
    assert left[|a|] == '|' && right[|b|] == '|';
    assert |a| == |b|;
    assert left[..|a|] == a && right[..|b|] == b;
    assert left[|a| + 1..] == c && right[|b| + 1..] == d;
  }

  lemma {:induction false} FieldsAgree(f: seq<string>, g: seq<string>)
    requires |f| == |g| && NoBars(f) && NoBars(g) && Bar(f) == Bar(g)
    ensures f == g
  {
    if |f| > 1 {
      assert f[0] + ("|" + Bar(f[1..])) == Bar(f) && g[0] + ("|" + Bar(g[1..])) == Bar(g);
      HeadsAgree(f[0], g[0], Bar(f[1..]), Bar(g[1..]));
      FieldsAgree(f[1..], g[1..]);
      assert f == [f[0]] + f[1..] && g == [g[0]] + g[1..];
    } else if |f| == 1 {
      assert f == [f[0]] && g == [g[0]];
    }
  }

  /** Two rows of as many fields, one of them without bars in its fields, have the same fields. */
  lemma RowsAgree(f: seq<string>, g: seq<string>)
    requires |f| == |g| && NoBars(g) && Bar(f) == Bar(g)
    ensures f == g
  {
    if f != [] {
      BarsOfRow(f);
      BarsOfRow(g);
      FieldsAgree(f, g);
    }
  }

  // ----- image rows --------------------------------------------------------------------

  function ImageFields(sequence: string, service: string, context: string, inputs: string): seq<string> {
    [sequence, "BUILD_APPLICATION_IMAGE", "service=" + service, "context=" + context,
     "tag=asklegal/" + service + ":hk-v1-candidate"] + ["inputs=" + inputs]
  }

  lemma ImageRowIsWith(sequence: string, service: string, inputs: string)
    ensures ImageRow(sequence, service, inputs) == Bar(ImageFields(sequence, service, "apps/" + service, inputs))
  {
    assert "context=apps/" + service == "context=" + ("apps/" + service);
  }

  lemma ImageFieldsHaveNoBars(sequence: string, service: string, inputs: string)
    requires '|' !in sequence && '|' !in service && IsFingerprint(inputs)
    ensures NoBars(ImageFields(sequence, service, "apps/" + service, inputs))
  {
    FingerprintHasNoBar(inputs);
    assert '|' !in "service=" + service && '|' !in "context=" + ("apps/" + service);
    assert '|' !in "tag=asklegal/" + service + ":hk-v1-candidate" && '|' !in "inputs=" + inputs;
  }

  lemma SameTail(lead: string, a: string, b: string)
    requires lead + a == lead + b
    ensures a == b
  {
    assert (lead + a)[|lead|..] == a && (lead + b)[|lead|..] == b;
  }

  lemma SameImageFields(sequence: string, service: string, context: string, inputs: string, expected: string, wanted: string, other: string)
    requires ImageFields(sequence, service, context, inputs) == ImageFields(sequence, expected, wanted, other)
    ensures service == expected && context == wanted && inputs == other
  {
    var f, g := ImageFields(sequence, service, context, inputs), ImageFields(sequence, expected, wanted, other);
    assert f[2] == g[2] && f[3] == g[3] && f[5] == g[5];
    SameTail("service=", service, expected);
    SameTail("context=", context, wanted);
    SameTail("inputs=", inputs, other);
  }

  /** A printed image row parses exactly when it names the expected service and that service's own context. */
  lemma ImageAgrees(sequence: string, k: nat, expected: string, service: string, context: string, inputs: string)
    requires '|' !in sequence && '|' !in expected && IsFingerprint(inputs)
    ensures var raw := Bar(ImageFields(sequence, service, context, inputs));
            ParseImage(sequence, k, expected, raw)
            == if service == expected && context == "apps/" + expected
               then Some(ImageAction(k, expected, "apps/" + expected, "asklegal/" + expected + ":hk-v1-candidate", inputs, raw)) else None
  {
    hide Bar, NoBars, ImageFields;
    var raw := Bar(ImageFields(sequence, service, context, inputs));
    var parsed := ParseImage(sequence, k, expected, raw);
    if parsed.Some? {
      ImageRowIsWith(sequence, expected, parsed.value.inputs);
      ImageFieldsHaveNoBars(sequence, expected, parsed.value.inputs);
      ImageFieldCount(sequence, service, context, inputs);
      ImageFieldCount(sequence, expected, "apps/" + expected, parsed.value.inputs);
      RowsAgree(ImageFields(sequence, service, context, inputs), ImageFields(sequence, expected, "apps/" + expected, parsed.value.inputs));
      SameImageFields(sequence, service, context, inputs, expected, "apps/" + expected, parsed.value.inputs);
    } else if service == expected && context == "apps/" + expected {
      ImageRowIsWith(sequence, expected, inputs);
      ImageRowEnds(sequence, expected, inputs);
      assert (ImageRow(sequence, expected, "") + inputs)[|ImageRow(sequence, expected, "")|..] == inputs;
    }
  }

  lemma ImageFieldCount(sequence: string, service: string, context: string, inputs: string)
    ensures |ImageFields(sequence, service, context, inputs)| == 6
  {
  }

  // ----- preserve rows -----------------------------------------------------------------

  function PreserveText(sequence: string, service: string, imageId: Option<string>): string {
    if imageId.None? then PreserveServiceRow(sequence, service) else PreserveImageRow(sequence, service, imageId.value)
  }

  lemma ServiceIsNoImage(sequence: string, service: string, imageId: string)
    ensures !(PreserveImageRow(sequence, service, imageId) <= PreserveServiceRow(sequence, service))
    ensures PreserveImageRow(sequence, service, imageId) != PreserveServiceRow(sequence, service)
  {
    var image, absent := "PRESERVE_RUNNING_IMAGE", "PRESERVE_RUNNING_SERVICE";
    var more, state := ["service=" + service, "image_id=" + imageId], ["service=" + service, "state=ABSENT_IN_RETAINED_INVENTORY"];
    assert PreserveFront(sequence, service) + ["image_id=" + imageId] == [sequence, image] + more;
    assert [sequence, absent, "service=" + service, "state=ABSENT_IN_RETAINED_INVENTORY"] == [sequence, absent] + state;
    BarSplit([sequence, image], more);
    BarSplit([sequence, absent], state);
    assert [sequence, image] == [sequence] + [image] && [sequence, absent] == [sequence] + [absent];
    BarCons(sequence, [image]);
    BarCons(sequence, [absent]);
    var at := |sequence| + 18;
    assert PreserveImageRow(sequence, service, imageId)[at] == image[17] == 'I';
    assert PreserveServiceRow(sequence, service)[at] == absent[17] == 'S';
  }

  /** A printed preserve row parses exactly when the image it names is a digest. */
  lemma PreserveAgrees(sequence: string, k: nat, service: string, imageId: Option<string>)
    ensures var raw := PreserveText(sequence, service, imageId);
            ParsePreserve(sequence, k, service, raw)
            == if imageId.None? || IsFingerprint(imageId.value) then Some(PreserveAction(k, service, imageId, raw)) else None
  {
    hide PreserveServiceRow, IsFingerprint;
    ServiceIsNoImage(sequence, service, "");
    if imageId.Some? {
      PreserveImageRowEnds(sequence, service, imageId.value);
      ServiceIsNoImage(sequence, service, imageId.value);
      assert (PreserveImageRow(sequence, service, "") + imageId.value)[|PreserveImageRow(sequence, service, "")|..] == imageId.value;
    }
  }

  // ----- all rows ----------------------------------------------------------------------

  /** The image rows are those printed for these services and contexts. */
  ghost predicate PrintedImages(numbers: seq<string>, rows: seq<string>, names: seq<string>, contexts: seq<string>, inputs: string) {
    && |numbers| == |rows| == |names| == |contexts| && IsFingerprint(inputs)
    && forall k | 0 <= k < |rows| :: '|' !in numbers[k] && rows[k] == Bar(ImageFields(numbers[k], names[k], contexts[k], inputs))
  }

  predicate OwnContexts(names: seq<string>, contexts: seq<string>, expected: seq<string>)
    requires |names| == |contexts| == |expected|
  {
    forall k | 0 <= k < |expected| :: names[k] == expected[k] && contexts[k] == "apps/" + expected[k]
  }

  lemma {:induction false} ImageRowsAgree(numbers: seq<string>, rows: seq<string>, names: seq<string>, contexts: seq<string>,
                                          inputs: string, expected: seq<string>, k: nat)
    requires PrintedImages(numbers, rows, names, contexts, inputs) && |expected| == |rows|
    requires forall i | 0 <= i < |expected| :: '|' !in expected[i]
    ensures var parsed := ParseImageRows(numbers, expected, rows, k);
            && (parsed.Some? <==> OwnContexts(names, contexts, expected))
            && (parsed.Some? ==> forall i | 0 <= i < |rows| ::
                  parsed.value[i] == ImageAction(k + i, expected[i], "apps/" + expected[i],
                                                 "asklegal/" + expected[i] + ":hk-v1-candidate", inputs, rows[i]))
  {
    hide ParseImage, ImageFields, IsFingerprint;
    if rows != [] {
      ImageRowsAgree(numbers[1..], rows[1..], names[1..], contexts[1..], inputs, expected[1..], k + 1);
      ImageAgrees(numbers[0], k, expected[0], names[0], contexts[0], inputs);
      OwnContextsSplit(names, contexts, expected);
    }
  }

  lemma OwnContextsSplit(names: seq<string>, contexts: seq<string>, expected: seq<string>)
    requires |names| == |contexts| == |expected| > 0
    ensures OwnContexts(names, contexts, expected)
       <==> names[0] == expected[0] && contexts[0] == "apps/" + expected[0] && OwnContexts(names[1..], contexts[1..], expected[1..])
  {
    if names[0] == expected[0] && contexts[0] == "apps/" + expected[0] && OwnContexts(names[1..], contexts[1..], expected[1..]) {
      forall k | 0 <= k < |expected| ensures names[k] == expected[k] && contexts[k] == "apps/" + expected[k] {
        if k > 0 {
          assert names[1..][k - 1] == expected[1..][k - 1] && contexts[1..][k - 1] == "apps/" + expected[1..][k - 1];
        }
      }
    }
    if OwnContexts(names, contexts, expected) {
      forall k | 0 <= k < |expected[1..]| ensures names[1..][k] == expected[1..][k] && contexts[1..][k] == "apps/" + expected[1..][k] {
        assert names[k + 1] == expected[k + 1];
      }
    }
  }

  predicate DigestOrAbsent(image: Option<string>) {
    image.Some? ==> IsFingerprint(image.value)
  }

  predicate AllDigests(images: seq<Option<string>>) {
    forall i | 0 <= i < |images| :: DigestOrAbsent(images[i])
  }

  lemma {:induction false} PreserveRowsAgree(numbers: seq<string>, services: seq<string>, rows: seq<string>,
                                             images: seq<Option<string>>, k: nat)
    requires |numbers| == |services| == |rows| == |images|
    requires forall i | 0 <= i < |rows| :: rows[i] == PreserveText(numbers[i], services[i], images[i])
    ensures var parsed := ParsePreserveRows(numbers, services, rows, k);
            && (parsed.Some? <==> AllDigests(images))
            && (parsed.Some? ==> forall i | 0 <= i < |rows| :: parsed.value[i] == PreserveAction(k + i, services[i], images[i], rows[i]))
  {
    hide ParsePreserve, PreserveText, IsFingerprint;
    if rows != [] {
      PreserveRowsAgree(numbers[1..], services[1..], rows[1..], images[1..], k + 1);
      PreserveAgrees(numbers[0], k, services[0], images[0]);
      AllDigestsSplit(images);
    }
  }

  lemma AllDigestsSplit(images: seq<Option<string>>)
    requires images != []
    ensures AllDigests(images) <==> DigestOrAbsent(images[0]) && AllDigests(images[1..])
  {
    hide DigestOrAbsent;
    if DigestOrAbsent(images[0]) && AllDigests(images[1..]) {
      forall i | 0 <= i < |images| ensures DigestOrAbsent(images[i]) {
        assert i > 0 ==> images[i] == images[1..][i - 1];
      }
    }
  }

  // ----- what the planner prints -------------------------------------------------------

  lemma ImagePrints(k: nat, number: string, inputs: Inputs, s: RuntimeService)
    requires Padded(k, 3) == number && s.serviceId in inputs.contexts
    ensures Numbered(k, ImageValue(inputs, s)) == Bar(ImageFields(number, s.serviceId, inputs.contexts[s.serviceId], inputs.imageInputs))
  {
    var fields := ["BUILD_APPLICATION_IMAGE", "service=" + s.serviceId, "context=" + inputs.contexts[s.serviceId],
                   "tag=asklegal/" + s.serviceId + ":hk-v1-candidate"] + ["inputs=" + inputs.imageInputs];
    NumberedIsBar(k, number, fields);
    assert [number] + fields == ImageFields(number, s.serviceId, inputs.contexts[s.serviceId], inputs.imageInputs);
  }

  function ImageOf(states: map<string, (string, string)>, service: string): Option<string> {
    if "asklegal-" + service in states then Some(states["asklegal-" + service].0) else None
  }

  lemma PreservePrints(k: nat, number: string, states: map<string, (string, string)>, service: string)
    requires Padded(k, 3) == number
    ensures Numbered(k, PreserveValue(states, service)) == PreserveText(number, service, ImageOf(states, service))
  {
    if "asklegal-" + service in states {
      var fields := ["PRESERVE_RUNNING_IMAGE", "service=" + service] + ["image_id=" + states["asklegal-" + service].0];
      NumberedIsBar(k, number, fields);
      assert [number] + fields == PreserveFront(number, service) + ["image_id=" + states["asklegal-" + service].0];
    } else {
      var fields := ["PRESERVE_RUNNING_SERVICE", "service=" + service, "state=ABSENT_IN_RETAINED_INVENTORY"];
      NumberedIsBar(k, number, fields);
      assert [number] + fields == [number, "PRESERVE_RUNNING_SERVICE", "service=" + service, "state=ABSENT_IN_RETAINED_INVENTORY"];
    }
  }

  lemma RecollectBuildPrints()
    ensures Numbered(6, VALUES.recollectBuild) == RECOLLECT_BUILD
  {
    SmallNumbers();
    var fields := ["RECOLLECT_HOST_FACTS", "output=var/hk-v1/host/post-image-build.json", "required=immutable-image-digests"];
    NumberedIsBar(6, "006", fields);
    assert ["006"] + fields == ["006", "RECOLLECT_HOST_FACTS", "output=var/hk-v1/host/post-image-build.json",
                                "required=immutable-image-digests"];
  }

  // ----- the theorem -------------------------------------------------------------------

  /** Exactly the five services are unpinned, each with its own context, and every present container has a digest. */
  predicate Buildable(inputs: Inputs, unpinned: seq<RuntimeService>) {
    |unpinned| == 5 && OwnServices(inputs, unpinned) && PreservedDigests(StatesOf(inputs.containers))
  }

  predicate OwnServices(inputs: Inputs, unpinned: seq<RuntimeService>)
    requires |unpinned| == 5
  {
    forall k | 0 <= k < 5 ::
      unpinned[k].serviceId == SERVICES[k] && unpinned[k].serviceId in inputs.contexts
      && inputs.contexts[unpinned[k].serviceId] == "apps/" + SERVICES[k]
  }

  predicate PreservedDigests(states: map<string, (string, string)>) {
    forall k | 0 <= k < 5 :: DigestOrAbsent(ImageOf(states, SERVICES[k]))
  }

  function NamesOf(services: seq<RuntimeService>): (r: seq<string>)
    ensures |r| == |services|
  {
    seq(|services|, i requires 0 <= i < |services| => services[i].serviceId)
  }

  function ContextsOf(inputs: Inputs, services: seq<RuntimeService>): (r: seq<string>)
    requires forall s | s in services :: s.serviceId in inputs.contexts
    ensures |r| == |services|
  {
    seq(|services|, i requires 0 <= i < |services| => inputs.contexts[services[i].serviceId])
  }

  lemma ImagesArePrinted(inputs: Inputs, unpinned: seq<RuntimeService>, rows: seq<string>)
    requires IsFingerprint(inputs.imageInputs) && |unpinned| == 5 && forall s | s in unpinned :: s.serviceId in inputs.contexts
    requires |rows| == 5 && forall k | 0 <= k < 5 :: rows[k] == Numbered(1 + k, ImageValues(inputs, unpinned)[k])
    ensures PrintedImages(FIRST_NUMBERS, rows, NamesOf(unpinned), ContextsOf(inputs, unpinned), inputs.imageInputs)
  {
    hide Numbered, ImageValue, ImageFields, IsFingerprint, Padded;
    forall k | 0 <= k < 5
      ensures '|' !in FIRST_NUMBERS[k]
      ensures rows[k] == Bar(ImageFields(FIRST_NUMBERS[k], NamesOf(unpinned)[k], ContextsOf(inputs, unpinned)[k], inputs.imageInputs))
    {
      SmallNumber(k);
      NumbersHaveNoBar(k);
      assert unpinned[k] in unpinned;
      ImagePrints(1 + k, FIRST_NUMBERS[k], inputs, unpinned[k]);
    }
  }

  lemma NumbersHaveNoBar(k: nat)
    requires k < 5
    ensures '|' !in FIRST_NUMBERS[k] && '|' !in SERVICES[k]
  {
    assert '|' !in SERVICES[0] && '|' !in SERVICES[1] && '|' !in SERVICES[2] && '|' !in SERVICES[3] && '|' !in SERVICES[4];
    assert '|' !in FIRST_NUMBERS[0] && '|' !in FIRST_NUMBERS[1] && '|' !in FIRST_NUMBERS[2]
        && '|' !in FIRST_NUMBERS[3] && '|' !in FIRST_NUMBERS[4];
  }

  function PreservedImages(states: map<string, (string, string)>): seq<Option<string>> {
    seq(5, k requires 0 <= k < 5 => ImageOf(states, Reversed(SERVICES)[k]))
  }

  lemma PreservesArePrinted(states: map<string, (string, string)>, unpinned: seq<RuntimeService>, rows: seq<string>)
    requires |unpinned| == 5 && forall k | 0 <= k < 5 :: unpinned[k].serviceId == SERVICES[k]
    requires rows == NumberedFrom(1, PreserveValues(states, unpinned))
    ensures |rows| == 5
    ensures forall k | 0 <= k < 5 :: rows[k] == PreserveText(FIRST_NUMBERS[k], Reversed(SERVICES)[k], PreservedImages(states)[k])
  {
    hide Numbered, PreserveText, PreserveValue, ImageOf, Padded;
    forall k | 0 <= k < 5
      ensures rows[k] == PreserveText(FIRST_NUMBERS[k], Reversed(SERVICES)[k], PreservedImages(states)[k])
    {
      SmallNumber(k);
      assert rows[k] == Numbered(1 + k, PreserveValues(states, unpinned)[k]);
      assert unpinned[4 - k].serviceId == Reversed(SERVICES)[k];
      PreservePrints(1 + k, FIRST_NUMBERS[k], states, Reversed(SERVICES)[k]);
    }
  }

  /** The rows of a plan body are those printed for these services. */
  ghost predicate PrintedBuild(values: FixedValues, fixed: FixedRows, inputs: Inputs, body: PlanBody) {
    var unpinned := Unpinned(inputs.services);
    && fixed.recollectBuild == Numbered(6, values.recollectBuild)
    && IsFingerprint(inputs.imageInputs) && body.imageInputs == inputs.imageInputs
    && (forall s | s in unpinned :: s.serviceId in inputs.contexts)
    && body.actions == NumberedFrom(1, ImageValues(inputs, unpinned) + [values.recollectBuild])
    && body.rollbackActions == NumberedFrom(1, PreserveValues(StatesOf(inputs.containers), unpinned))
    && body.rollbackState == "CANDIDATE_IMAGES_NOT_ACTIVATED"
  }

  lemma BuildActionsSplit(values: FixedValues, inputs: Inputs, unpinned: seq<RuntimeService>, actions: seq<string>)
    requires forall s | s in unpinned :: s.serviceId in inputs.contexts
    requires actions == NumberedFrom(1, ImageValues(inputs, unpinned) + [values.recollectBuild])
    ensures |actions| == |unpinned| + 1
    ensures |unpinned| == 5 ==> actions[5] == Numbered(6, values.recollectBuild)
    ensures |unpinned| == 5 ==> forall k | 0 <= k < 5 :: actions[..5][k] == Numbered(1 + k, ImageValues(inputs, unpinned)[k])
  {
    hide Numbered, ImageValue;
    var all := ImageValues(inputs, unpinned) + [values.recollectBuild];
    if |unpinned| == 5 {
      assert actions[5] == Numbered(1 + 5, all[5]);
      forall k | 0 <= k < 5 ensures actions[..5][k] == Numbered(1 + k, ImageValues(inputs, unpinned)[k]) {
        assert actions[..5][k] == actions[k] == Numbered(1 + k, all[k]);
      }
    }
  }

  lemma OwnContextsMean(inputs: Inputs, unpinned: seq<RuntimeService>)
    requires |unpinned| == 5 && forall s | s in unpinned :: s.serviceId in inputs.contexts
    ensures OwnContexts(NamesOf(unpinned), ContextsOf(inputs, unpinned), SERVICES) <==> OwnServices(inputs, unpinned)
  {
    assert forall k | 0 <= k < 5 :: unpinned[k] in unpinned;
    var names, contexts := NamesOf(unpinned), ContextsOf(inputs, unpinned);
    assert forall k | 0 <= k < 5 :: names[k] == unpinned[k].serviceId && contexts[k] == inputs.contexts[unpinned[k].serviceId];
  }

  lemma PreservedMeans(states: map<string, (string, string)>)
    ensures AllDigests(PreservedImages(states)) <==> PreservedDigests(states)
  {
    hide ImageOf, DigestOrAbsent;
    var images := PreservedImages(states);
    assert forall k | 0 <= k < 5 :: images[4 - k] == ImageOf(states, SERVICES[k]);
    if AllDigests(images) {
      forall k | 0 <= k < 5 ensures DigestOrAbsent(ImageOf(states, SERVICES[k])) {
        assert DigestOrAbsent(images[4 - k]);
      }
    }
    if PreservedDigests(states) {
      forall k | 0 <= k < 5 ensures DigestOrAbsent(images[k]) {
        assert DigestOrAbsent(ImageOf(states, SERVICES[4 - k]));
      }
    }
  }

  lemma BuildImagesParse(values: FixedValues, fixed: FixedRows, inputs: Inputs, body: PlanBody)
    requires PrintedBuild(values, fixed, inputs, body) && |Unpinned(inputs.services)| == 5
    ensures |body.actions| == 6 && body.actions[5] == fixed.recollectBuild
    ensures var unpinned, images := Unpinned(inputs.services), ParseImageRows(FIRST_NUMBERS, SERVICES, body.actions[..5], 1);
            && (images.Some? <==> OwnContexts(NamesOf(unpinned), ContextsOf(inputs, unpinned), SERVICES))
            && (images.Some? ==> forall k | 0 <= k < 5 :: images.value[k].service == SERVICES[k] && images.value[k].inputs == inputs.imageInputs)
  {
    hide ImageValue, Numbered, OwnContexts, IsFingerprint, ParseImage, ImageFields, StatesOf;
    var unpinned := Unpinned(inputs.services);
    BuildActionsSplit(values, inputs, unpinned, body.actions);
    ImagesArePrinted(inputs, unpinned, body.actions[..5]);
    forall k | 0 <= k < 5 ensures '|' !in SERVICES[k] {
      NumbersHaveNoBar(k);
    }
    ImageRowsAgree(FIRST_NUMBERS, body.actions[..5], NamesOf(unpinned), ContextsOf(inputs, unpinned), inputs.imageInputs, SERVICES, 1);
  }

  lemma BuildPreservesParse(values: FixedValues, fixed: FixedRows, inputs: Inputs, body: PlanBody)
    requires PrintedBuild(values, fixed, inputs, body) && |Unpinned(inputs.services)| == 5
    requires OwnContexts(NamesOf(Unpinned(inputs.services)), ContextsOf(inputs, Unpinned(inputs.services)), SERVICES)
    ensures |body.rollbackActions| == 5 && AllNonempty(body.rollbackActions)
    ensures var images, preserves := PreservedImages(StatesOf(inputs.containers)),
                                     ParsePreserveRows(FIRST_NUMBERS, Reversed(SERVICES), body.rollbackActions, 1);
            && (preserves.Some? <==> AllDigests(images))
            && (preserves.Some? ==> forall k | 0 <= k < 5 ::
                  preserves.value[k].service == Reversed(SERVICES)[k] && preserves.value[k].imageId == images[k])
  {
    hide ImageValue, ImageValues, Numbered, StatesOf, ImageOf, AllDigests, OwnContexts, IsFingerprint,
      ParsePreserve, PreserveText, PreserveValue;
    var unpinned, states := Unpinned(inputs.services), StatesOf(inputs.containers);
    OwnNames(inputs, unpinned);
    PreservesArePrinted(states, unpinned, body.rollbackActions);
    NumberedAreTexts(PreserveValues(states, unpinned));
    PreserveRowsAgree(FIRST_NUMBERS, Reversed(SERVICES), body.rollbackActions, PreservedImages(states), 1);
  }

  /** A printed build phase is refused for its services, contexts or containers, and for nothing else. */
  lemma PrintedBuildParses(values: FixedValues, fixed: FixedRows, inputs: Inputs, body: PlanBody)
    requires PrintedBuild(values, fixed, inputs, body)
    ensures ParseBuildPhase(fixed, body, Sha256(body)).Success? <==> Buildable(inputs, Unpinned(inputs.services))
    ensures ParseBuildPhase(fixed, body, Sha256(body)).Success? ==>
              var plan := ParseBuildPhase(fixed, body, Sha256(body)).value;
              && plan.BuildPhase?
              && plan.fingerprint == Sha256(body) && plan.actions == body.actions && plan.targets == body.targets
              && plan.imageInputs == inputs.imageInputs && |plan.imageActions| == |plan.preserveActions| == 5
              && (forall k | 0 <= k < 5 ::
                    && plan.imageActions[k].service == SERVICES[k] && plan.imageActions[k].inputs == inputs.imageInputs
                    && plan.preserveActions[k].service == Reversed(SERVICES)[k]
                    && plan.preserveActions[k].imageId == PreservedImages(StatesOf(inputs.containers))[k])
  {
    hide ImageValues, PreserveValues, NumberedFrom, StatesOf, PreservedImages, AllDigests, OwnServices,
      PreservedDigests, OwnContexts, IsFingerprint, NamesOf, ContextsOf, ParseImage, ParsePreserve, ImageRow;
    var unpinned := Unpinned(inputs.services);
    if |unpinned| == 5 {
      OwnContextsMean(inputs, unpinned);
      PreservedMeans(StatesOf(inputs.containers));
      BuildImagesParse(values, fixed, inputs, body);
      if OwnContexts(NamesOf(unpinned), ContextsOf(inputs, unpinned), SERVICES) {
        BuildPreservesParse(values, fixed, inputs, body);
      }
    } else {
      BuildActionsSplit(values, inputs, unpinned, body.actions);
      NotFive(inputs, unpinned);
    }
  }

  lemma NotFive(inputs: Inputs, unpinned: seq<RuntimeService>)
    requires |unpinned| != 5
    ensures !Buildable(inputs, unpinned)
  {
  }

  lemma OwnNames(inputs: Inputs, unpinned: seq<RuntimeService>)
    requires |unpinned| == 5 && forall s | s in unpinned :: s.serviceId in inputs.contexts
    requires OwnContexts(NamesOf(unpinned), ContextsOf(inputs, unpinned), SERVICES)
    ensures forall k | 0 <= k < 5 :: unpinned[k].serviceId == SERVICES[k]
  {
    forall k | 0 <= k < 5 ensures unpinned[k].serviceId == SERVICES[k] {
      assert NamesOf(unpinned)[k] == SERVICES[k];
    }
  }

  lemma BuildBodyIs(values: FixedValues, fixed: FixedRows, inputs: Inputs, body: PlanBody)
    requires Loaded(inputs) && inputs.buildResults.None? && inputs.factsComplete
    requires BuildPlanWith(values, inputs).Some? && body == BuildPlanWith(values, inputs).value.body
    requires fixed.recollectBuild == Numbered(6, values.recollectBuild)
    ensures PrintedBuild(values, fixed, inputs, body)
  {
    hide ImageValues, PreserveValues, NumberedFrom, StatesOf, Unpinned, IsFingerprint, ContractOf, HostBlockers,
      Targets, Numbered;
    FrozenRest(values, inputs, body);
  }

  lemma IncompleteBlockersDecide(inputs: Inputs, blockers: seq<string>)
    requires blockers == Sorted(AllBlockers(inputs))
    ensures AllNonempty(blockers)
    ensures TextSet(blockers) * INCOMPLETE_BLOCKERS == {} <==> inputs.factsComplete && inputs.evidence.recovery.Valid?
  {
    hide CredentialContract, RecoveryContract, HostBlockers, OfRecovery, TextSet, RecoveryLimitations, Sorted;
    HostBlockersRefuse(inputs);
    HostBlockersArePlain(inputs);
    CredentialBlockersRefuse(inputs.evidence);
    RecoveryBlockersRefuse(inputs.evidence);
    var only :| RecoveryContract(inputs.evidence).0 == {only} && OfRecovery(only)
      && (only == RECOVERY_NOT_READY <==> inputs.evidence.recovery.Valid? && !inputs.evidence.recovery.value.ready);
    OneLimitationOf(HostBlockers(inputs), CredentialContract(inputs.evidence).0, only, blockers);
    DisjointFrom(HostBlockers(inputs), CredentialContract(inputs.evidence).0, {only}, TextSet(blockers), INCOMPLETE_BLOCKERS);
  }

  lemma BuildAgreementWith(values: FixedValues, fixed: FixedRows, inputs: Inputs)
    requires Loaded(inputs) && inputs.buildResults.None? && inputs.factsComplete && BuildPlanWith(values, inputs).Some?
    requires fixed.recollectBuild == Numbered(6, values.recollectBuild)
    ensures var file := BuildPlanWith(values, inputs).value;
            && file.body.buildResults.None?
            && (ParsePlanWith(fixed, file).Success? <==>
                  inputs.evidence.recovery.Valid? && ParseBuildPhase(fixed, file.body, Sha256(file.body)).Success?)
            && (ParsePlanWith(fixed, file).Success? ==> ParsePlanWith(fixed, file) == ParseBuildPhase(fixed, file.body, Sha256(file.body)))
            && PrintedBuild(values, fixed, inputs, file.body)
  {
    hide BuildPlanWith, ParseBuildPhase, ContractOf, HostBlockers, AllBlockers, Targets, PrintedBuild, AllNonempty,
      SortedSet, TextSet, Sorted;
    var body := BuildPlanWith(values, inputs).value.body;
    FrozenRest(values, inputs, body);
    BuildBodyIs(values, fixed, inputs, body);
    BuildActionsAreTexts(values, fixed, inputs, body);
    TargetsAreTexts(inputs);
    SortedTextsAreASet(Targets(inputs).value);
    IncompleteBlockersDecide(inputs, body.blockers);
  }

  lemma BuildActionsAreTexts(values: FixedValues, fixed: FixedRows, inputs: Inputs, body: PlanBody)
    requires PrintedBuild(values, fixed, inputs, body)
    ensures AllNonempty(body.actions) && body.actions != []
  {
    hide ImageValue, Numbered;
    NumberedAreTexts(ImageValues(inputs, Unpinned(inputs.services)) + [values.recollectBuild]);
  }

  /**
   A plan frozen without build results is accepted exactly when it fits, the facts are complete, the recovery
   report is valid, exactly the five services are unpinned, each with its own context, and every
   present container's image is a digest; the credential rotation has no part in it.
   */
  lemma BuildsAgree(size: PlanSize, inputs: Inputs)
    requires Loaded(inputs) && inputs.buildResults.None? && BuildPlan(inputs).Some?
    ensures ReadPlan(size, BuildPlan(inputs).value).Success?
       <==> PlanFits(size, BuildPlan(inputs).value)
            && inputs.factsComplete && inputs.evidence.recovery.Valid? && Buildable(inputs, Unpinned(inputs.services))
  {
    hide BuildPlanWith, ParsePlanWith, ParseBuildPhase, PrintedBuild, Buildable, Loaded;
    RecollectBuildPrints();
    if inputs.factsComplete {
      BuildAgreementWith(VALUES, FIXED, inputs);
      PrintedBuildParses(VALUES, FIXED, inputs, BuildPlan(inputs).value.body);
    } else {
      IncompleteIsRefused(VALUES, FIXED, inputs);
    }
  }

  /** What the executor binds for a build is what the planner was given. */
  lemma AcceptedBuildBinds(size: PlanSize, inputs: Inputs)
    requires Loaded(inputs) && inputs.buildResults.None? && BuildPlan(inputs).Some?
    requires ReadPlan(size, BuildPlan(inputs).value).Success?
    ensures var body, plan := BuildPlan(inputs).value.body, ReadPlan(size, BuildPlan(inputs).value).value;
            && plan.BuildPhase? && plan.fingerprint == Sha256(body) && plan.actions == body.actions && plan.targets == body.targets
            && plan.imageInputs == inputs.imageInputs && |plan.imageActions| == |plan.preserveActions| == 5
            && (forall k | 0 <= k < 5 ::
                  && plan.imageActions[k].service == SERVICES[k] && plan.imageActions[k].inputs == inputs.imageInputs
                  && plan.preserveActions[k].service == Reversed(SERVICES)[k]
                  && plan.preserveActions[k].imageId == ImageOf(StatesOf(inputs.containers), Reversed(SERVICES)[k]))
  {
    hide BuildPlanWith, ParsePlanWith, ParseBuildPhase, PrintedBuild, Buildable, Loaded, ImageOf, StatesOf;
    BuildsAgree(size, inputs);
    RecollectBuildPrints();
    BuildAgreementWith(VALUES, FIXED, inputs);
    PrintedBuildParses(VALUES, FIXED, inputs, BuildPlan(inputs).value.body);
  }
}
