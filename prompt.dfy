/**
 * `create_extraction_prompt` of app/services/ai_extractor.py: the invoice
 * text placed, verbatim, between a fixed Spanish instruction header and a
 * fixed description of the JSON shape the model must return.
 */
module Prompt {

  /** The line the invoice text follows. */
  const TextHeader: string := "TEXTO DE LA FACTURA:\n"

  /** The line the prompt ends with, where the model's answer is to start. */
  const ReplyCue: string := "JSON:\n"

  /** Everything the prompt holds before the invoice text. */
  const PromptPrefix: string := PromptIntro + TextHeader

  /** The instructions ahead of the text header. */
  const PromptIntro: string :=
    "\n"
    + "Analiza el siguiente texto de una factura y extrae la informaci\U{F3}n en formato JSON. \n"
    + "El texto puede estar en espa\U{F1}ol y contener informaci\U{F3}n de facturas electr\U{F3}nicas colombianas.\n"
    + "\n"

  /** Everything the prompt holds after the invoice text. */
  const PromptSuffix: string := SuffixBody + ReplyCue

  /** The description of the JSON shape and the rules for it. */
  const SuffixBody: string :=
    "\n"
    + "\n"
    + "Extrae la siguiente informaci\U{F3}n y devu\U{E9}lvela en formato JSON v\U{E1}lido:\n"
    + "\n"
    + "{\n"
    + "    \"document_type\": \"tipo de documento (ej: FACTURA ELECTRONICA, NOTA DEBITO, etc.)\",\n"
    + "    \"series\": \"serie de la factura\",\n"
    + "    \"number\": \"n\U{FA}mero de la factura\",\n"
    + "    \"issue_date\": \"fecha de emisi\U{F3}n en formato YYYY-MM-DD\",\n"
    + "    \"due_date\": \"fecha de vencimiento en formato YYYY-MM-DD\",\n"
    + "    \"supplier\": {\n"
    + "        \"name\": \"nombre del proveedor/emisor\",\n"
    + "        \"tax_id\": \"NIT o identificaci\U{F3}n tributaria\",\n"
    + "        \"address\": \"direcci\U{F3}n\",\n"
    + "        \"phone\": \"tel\U{E9}fono\",\n"
    + "        \"email\": \"email\"\n"
    + "    },\n"
    + "    \"currency\": \"moneda (COP, USD, etc.)\",\n"
    + "    \"items\": [\n"
    + "        {\n"
    + "            \"description\": \"descripci\U{F3}n del producto/servicio\",\n"
    + "            \"quantity\": cantidad_num\U{E9}rica,\n"
    + "            \"unit_price\": precio_unitario_num\U{E9}rico,\n"
    + "            \"discount_percentage\": porcentaje_descuento_num\U{E9}rico,\n"
    + "            \"subtotal\": subtotal_num\U{E9}rico\n"
    + "        }\n"
    + "    ],\n"
    + "    \"taxes\": {\n"
    + "        \"ica_percentage\": porcentaje_ica_num\U{E9}rico,\n"
    + "        \"ica_amount\": valor_ica_num\U{E9}rico,\n"
    + "        \"fuente_percentage\": porcentaje_retefuente_num\U{E9}rico,\n"
    + "        \"fuente_amount\": valor_retefuente_num\U{E9}rico,\n"
    + "        \"iva_percentage\": porcentaje_iva_num\U{E9}rico,\n"
    + "        \"iva_amount\": valor_iva_num\U{E9}rico\n"
    + "    },\n"
    + "    \"totals\": {\n"
    + "        \"subtotal\": subtotal_total_num\U{E9}rico,\n"
    + "        \"discount_total\": descuentos_total_num\U{E9}rico,\n"
    + "        \"tax_total\": impuestos_total_num\U{E9}rico,\n"
    + "        \"retention_total\": retenciones_total_num\U{E9}rico,\n"
    + "        \"total\": total_final_num\U{E9}rico\n"
    + "    }\n"
    + "}\n"
    + "\n"
    + "INSTRUCCIONES IMPORTANTES:\n"
    + "1. Devuelve SOLO el JSON v\U{E1}lido, sin texto adicional\n"
    + "2. Usa null para valores no encontrados\n"
    + "3. Convierte todos los valores monetarios a n\U{FA}meros (sin s\U{ED}mbolos ni comas)\n"
    + "4. Las fechas deben estar en formato YYYY-MM-DD\n"
    + "5. Si no encuentras un campo, usa null en lugar de texto vac\U{ED}o\n"
    + "6. Para arrays vac\U{ED}os, usa []\n"
    + "7. Para porcentajes, usa el valor num\U{E9}rico (ej: 19.0 para 19%)\n"
    + "\n"

  /** `create_extraction_prompt(text)`: the text, verbatim, between the fixed prefix and suffix. */
  function CreateExtractionPrompt(text: string): string
  {
    Framed(PromptPrefix, text, PromptSuffix)
  }

  /** A text between a prefix and a suffix, each found again at its place. */
  function Framed(prefix: string, text: string, suffix: string): (r: string)
    ensures |r| == |prefix| + |text| + |suffix|
    ensures r[..|prefix|] == prefix
    ensures r[|prefix|..|prefix| + |text|] == text
    ensures r[|prefix| + |text|..] == suffix
  {
    prefix + text + suffix
  }

  /** What lies between a prefix of length `before` and a suffix of length `after`. */
  function Unframed(s: string, before: nat, after: nat): (t: string)
    requires before + after <= |s|
    ensures |t| == |s| - before - after
    ensures s == s[..before] + t + s[|s| - after..]
  {
    s[before..|s| - after]
  }

  /** The text can be read back out of a framed text given only the lengths of the frame. */
  lemma UnframedFramed(prefix: string, text: string, suffix: string)
    ensures |prefix| + |suffix| <= |Framed(prefix, text, suffix)|
    ensures Unframed(Framed(prefix, text, suffix), |prefix|, |suffix|) == text
  {
    var r := Framed(prefix, text, suffix);
    assert |r| - |suffix| == |prefix| + |text|;
  }

  /** Under a fixed frame, different texts give different results. */
  lemma FramedInjective(prefix: string, suffix: string, a: string, b: string)
    requires Framed(prefix, a, suffix) == Framed(prefix, b, suffix)
    ensures a == b
  {
    UnframedFramed(prefix, a, suffix);
    UnframedFramed(prefix, b, suffix);
  }

  /** No two invoice texts share a prompt. */
  lemma PromptInjective(a: string, b: string)
    requires CreateExtractionPrompt(a) == CreateExtractionPrompt(b)
    ensures a == b
  {
    FramedInjective(PromptPrefix, PromptSuffix, a, b);
  }

  /**
   * With a prefix that ends in `header` and a suffix that ends in `cue`,
   * the text comes right after `header` and the whole ends with `cue`: the
   * prompt's text follows the line `TEXTO DE LA FACTURA:` and the prompt
   * ends with the line `JSON:`.
   */
  lemma FramedEnds(intro: string, header: string, text: string, body: string, cue: string)
    ensures var r := Framed(intro + header, text, body + cue);
      && r[|intro|..|intro| + |header|] == header
      && r[|intro| + |header|..|intro| + |header| + |text|] == text
      && r[|r| - |cue|..] == cue
  {
    var r := Framed(intro + header, text, body + cue);
    assert r == intro + header + text + body + cue;
    assert r[|intro|..|intro| + |header|] == header;
  }
}
