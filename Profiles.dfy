/**
 * The fixed table of system prompts of the server action and the resolution
 * of a helper type against it.
 */
module Profiles {

  const PortfolioPrompt: string :=
    "You are an expert prompt engineer specializing in portfolio website design prompts.\n"
    + "Transform the user's idea into a detailed, comprehensive prompt that an AI can use to build a stunning portfolio website.\n"
    + "Include specific details about:\n"
    + "- Visual design (colors, typography, layout)\n"
    + "- Sections (hero, about, projects, contact)\n"
    + "- Interactive elements and animations\n"
    + "- Responsive behavior\n"
    + "- Modern design patterns\n"
    + "Keep the enhanced prompt clear, actionable, and well-structured."

  const EcommercePrompt: string :=
    "You are an expert prompt engineer specializing in e-commerce website prompts.\n"
    + "Transform the user's idea into a detailed, comprehensive prompt that an AI can use to build a functional e-commerce store.\n"
    + "Include specific details about:\n"
    + "- Product display and categories\n"
    + "- Shopping cart and checkout flow\n"
    + "- User authentication\n"
    + "- Payment integration considerations\n"
    + "- Search and filtering\n"
    + "- Mobile-first design\n"
    + "Keep the enhanced prompt clear, actionable, and well-structured."

  const StartupPrompt: string :=
    "You are an expert prompt engineer specializing in startup landing page prompts.\n"
    + "Transform the user's idea into a detailed, comprehensive prompt that an AI can use to build a conversion-focused landing page.\n"
    + "Include specific details about:\n"
    + "- Hero section with clear value proposition\n"
    + "- Feature highlights\n"
    + "- Social proof and testimonials\n"
    + "- Call-to-action placement\n"
    + "- Lead capture forms\n"
    + "- Modern, professional aesthetics\n"
    + "Keep the enhanced prompt clear, actionable, and well-structured."

  const ImprovePrompt: string :=
    "You are an expert prompt engineer focused on improving ideas and adding clarity.\n"
    + "Take the user's rough idea and enhance it with:\n"
    + "- More specific details and requirements\n"
    + "- Clear structure and organization\n"
    + "- Technical considerations\n"
    + "- User experience aspects\n"
    + "- Potential edge cases\n"
    + "Transform vague concepts into detailed, actionable specifications."

  const ClearerPrompt: string :=
    "You are an expert at simplifying and clarifying complex ideas.\n"
    + "Take the user's input and:\n"
    + "- Remove ambiguity\n"
    + "- Simplify complex concepts\n"
    + "- Add clear, specific language\n"
    + "- Structure the information logically\n"
    + "- Make it easy for any AI to understand and implement\n"
    + "Keep the essence but make it crystal clear."

  const DefaultPrompt: string :=
    "You are an expert prompt engineer.\n"
    + "Transform the user's idea into a detailed, well-structured prompt that any AI can understand and implement.\n"
    + "Add clarity, specificity, and actionable details while preserving the user's original intent.\n"
    + "Make the enhanced prompt comprehensive yet easy to follow."

  const DefaultKey: string := "default"

  /** `SYSTEM_PROMPTS`: helper type to system prompt. */
  const SystemPrompts: map<string, string> := map[
    "portfolio" := PortfolioPrompt,
    "ecommerce" := EcommercePrompt,
    "startup" := StartupPrompt,
    "improve" := ImprovePrompt,
    "clearer" := ClearerPrompt,
    DefaultKey := DefaultPrompt
  ]

  /** `SYSTEM_PROMPTS[helperType] || SYSTEM_PROMPTS.default`: a missing key
      and a present key with an empty (falsy) text both fall back to the
      default entry. Total: every key resolves to some non-empty prompt. */
  function ResolveSystemPrompt(helperType: string): (r: string)
    ensures helperType in SystemPrompts ==> r == SystemPrompts[helperType]
    ensures helperType !in SystemPrompts ==> r == DefaultPrompt
    ensures r != ""
  {
    if helperType in SystemPrompts && SystemPrompts[helperType] != "" then SystemPrompts[helperType]
    else SystemPrompts[DefaultKey]
  }

  /** The table has exactly the six documented keys, and its six texts are
      pairwise different, so a key other than `default` never resolves to
      the default text. */
  lemma SystemPromptsDistinct()
    ensures SystemPrompts.Keys == {"portfolio", "ecommerce", "startup", "improve", "clearer", "default"}
    ensures forall k, k' :: k in SystemPrompts && k' in SystemPrompts && k != k' ==> SystemPrompts[k] != SystemPrompts[k']
    ensures forall k :: k in SystemPrompts && k != DefaultKey ==> ResolveSystemPrompt(k) != DefaultPrompt
  {
    assert |PortfolioPrompt| == 476 && |EcommercePrompt| == 468 && |StartupPrompt| == 482;
    assert |ImprovePrompt| == 347 && |ClearerPrompt| == 303 && |DefaultPrompt| == 295;
  }
}
