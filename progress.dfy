/**
 * The cosmetic progress indicator: six phrases shown in turn while a guide is generated, the
 * index advancing by one on every tick of the interval and wrapping after the last phrase.
 */
module Progress {

  const ThinkingSteps: seq<string> := [
    "🧠 Analizando perfil cultural de los estudiantes...",
    "📚 Consultando el currículo oficial (BOE)...",
    "🔎 Detectando palabras complejas o arcaicas...",
    "🌉 Construyendo puentes culturales...",
    "✍️ Redactando ficha didáctica inclusiva...",
    "✨ Dando los últimos toques de magia..."
  ]

  /** The tick's update `(stepIndex + 1) % thinkingSteps.length`: the next phrase, wrapping to the first. */
  function NextStep(i: nat): (j: nat)
    ensures j < |ThinkingSteps|
    ensures i + 1 < |ThinkingSteps| ==> j == i + 1
    ensures i + 1 == |ThinkingSteps| ==> j == 0
  {
    (i + 1) % |ThinkingSteps|
  }

  /** The index after `k` ticks, starting from the first phrase. */
  function StepAfter(k: nat): nat {
    if k == 0 then 0 else NextStep(StepAfter(k - 1))
  }

  /** After `k` ticks the indicator shows phrase `k mod 6`: the phrases repeat in a cycle of six. */
  lemma {:induction false} StepAfterTicks(k: nat)
    ensures StepAfter(k) == k % |ThinkingSteps|
  {
    if k > 0 {
      StepAfterTicks(k - 1);
      var n := |ThinkingSteps|;
      assert n == 6;
      assert (k - 1) % n + 1 == n ==> k % n == 0;
      assert (k - 1) % n + 1 < n ==> k % n == (k - 1) % n + 1;
    }
  }
}
