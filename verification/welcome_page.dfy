/** src/pages/WelcomePage.tsx of the web client: the four-step onboarding
    carousel. */
module WelcomeUi {

  datatype Step = Step(title: string, subtitle: string)

  const Steps: seq<Step> := [
    Step("Bem-vindo(a) à IA Nutricionista", "Seu assistente pessoal de saúde e nutrição."),
    Step("Dashboard Personalizado", "Acompanhe peso, altura, IMC e progresso em tempo real."),
    Step("Chat Inteligente", "Tire dúvidas sobre dieta, calorias e receba dicas."),
    Step("Análise de Imagem", "Faça upload de fotos e receba análise nutricional automática.")
  ]

  /** Where the last step's button leads. */
  const Home: string := "/"

  /** The forward button's text: "Começar" exactly at the last step. */
  function NextLabel(step: int): (text: string)
    ensures text == "Começar" <==> step == |Steps| - 1
    ensures text == "Começar" || text == "Próximo"
  {
    if step == |Steps| - 1 then "Começar" else "Próximo"
  }

  /** The page's state; `navigations` lists the routes it has asked the
      router for. */
  class WelcomePage {
    var activeStep: int
    var navigations: seq<string>

    /** The step always names one of the four entries. */
    predicate Valid()
      reads this
    {
      0 <= activeStep < |Steps|
    }

    /** The entry shown. */
    function Current(): Step
      reads this
      requires Valid()
    {
      Steps[activeStep]
    }

    predicate BackDisabled()
      reads this
    {
      activeStep == 0
    }

    constructor()
      ensures Valid()
      ensures activeStep == 0 && navigations == []
      ensures BackDisabled()
    {
      activeStep := 0;
      navigations := [];
    }

    /** `handleNext`: at the last step it navigates home and keeps the step;
        before it, it moves one step on. */
    method HandleNext()
      requires Valid()
      modifies this
      ensures Valid()
      ensures old(activeStep) == |Steps| - 1 ==>
                activeStep == old(activeStep) && navigations == old(navigations) + [Home]
      ensures old(activeStep) < |Steps| - 1 ==>
                activeStep == old(activeStep) + 1 && navigations == old(navigations)
    {
      if activeStep == |Steps| - 1 {
        navigations := navigations + [Home];
      } else {
        activeStep := activeStep + 1;
      }
    }

    /** `handleBack`, which has no guard of its own. */
    method HandleBack()
      modifies this
      ensures activeStep == old(activeStep) - 1
      ensures navigations == old(navigations)
    {
      activeStep := activeStep - 1;
    }

    /** A click on the back button, which is disabled at the first step:
        only then does `handleBack` run, so the step stays in range. */
    method ClickBack()
      requires Valid()
      modifies this
      ensures Valid()
      ensures activeStep == (if old(activeStep) == 0 then 0 else old(activeStep) - 1)
      ensures navigations == old(navigations)
    {
      if !BackDisabled() {
        HandleBack();
      }
    }
  }
}
