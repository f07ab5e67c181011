/** Per-model token accounting on the exam ally page (pages/03_exam_ally.py):
    `st.session_state.token_counts`, a map from model name to the input and
    output tokens spent with that model. */
module TokenUsage {

  /** The models the page offers (`models`). */
  const Models: seq<string> := ["command-r-plus", "llama-3.3-70b-versatile"]

  function ModelSet(): set<string>
  {
    set m | m in Models
  }

  datatype Usage = Usage(inputTokens: nat, outputTokens: nat)

  /** One chat turn's report from the completion call, charged to `model`. */
  datatype Charge = Charge(model: string, inputTokens: nat, outputTokens: nat)

  /** The counters set up on entering the page: every offered model at zero. */
  function FreshCounts(): (r: map<string, Usage>)
    ensures r.Keys == ModelSet()
    ensures forall m :: m in r ==> r[m] == Usage(0, 0)
  {
    map m | m in ModelSet() :: Usage(0, 0)
  }

  /** The two `+=` on the selected model's counters. */
  function Add(counts: map<string, Usage>, c: Charge): (r: map<string, Usage>)
    requires c.model in counts
    ensures r.Keys == counts.Keys
    ensures forall m :: m in counts && m != c.model ==> r[m] == counts[m]
    ensures r[c.model] == Usage(counts[c.model].inputTokens + c.inputTokens,
                                counts[c.model].outputTokens + c.outputTokens)
  {
    var u := counts[c.model];
    counts[c.model := Usage(u.inputTokens + c.inputTokens, u.outputTokens + c.outputTokens)]
  }

  /** The counters after a series of chat turns. */
  function AddAll(counts: map<string, Usage>, charges: seq<Charge>): map<string, Usage>
    requires forall k :: 0 <= k < |charges| ==> charges[k].model in counts
    decreases |charges|
  {
    if charges == [] then counts else AddAll(Add(counts, charges[0]), charges[1..])
  }

  /** Input tokens charged to `model` in a series of turns. */
  function InputTotal(charges: seq<Charge>, model: string): nat
    decreases |charges|
  {
    if charges == [] then 0
    else (if charges[0].model == model then charges[0].inputTokens else 0) + InputTotal(charges[1..], model)
  }

  /** Output tokens charged to `model` in a series of turns. */
  function OutputTotal(charges: seq<Charge>, model: string): nat
    decreases |charges|
  {
    if charges == [] then 0
    else (if charges[0].model == model then charges[0].outputTokens else 0) + OutputTotal(charges[1..], model)
  }

  /** After any series of turns each model's counters are their old values plus
      exactly the tokens charged to that model, so they never decrease, and the set
      of models counted does not change. */
  lemma {:induction false} CountersSumCharges(counts: map<string, Usage>, charges: seq<Charge>, model: string)
    requires forall k :: 0 <= k < |charges| ==> charges[k].model in counts
    requires model in counts
    ensures AddAll(counts, charges).Keys == counts.Keys
    ensures AddAll(counts, charges)[model] ==
      Usage(counts[model].inputTokens + InputTotal(charges, model),
            counts[model].outputTokens + OutputTotal(charges, model))
    ensures AddAll(counts, charges)[model].inputTokens >= counts[model].inputTokens
    ensures AddAll(counts, charges)[model].outputTokens >= counts[model].outputTokens
    decreases |charges|
  {
    if charges != [] {
      var next := Add(counts, charges[0]);
      assert forall k :: 0 <= k < |charges[1..]| ==> charges[1..][k].model in next by {
        forall k | 0 <= k < |charges[1..]| ensures charges[1..][k].model in next {
          assert charges[1..][k] == charges[k + 1];
        }
      }
      CountersSumCharges(next, charges[1..], model);
    }
  }
}
